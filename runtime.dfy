/** The container runtime that the exit path of the agent drives.

    The real client is a foreign library; here it is an abstract store of
    containers, volumes and images that answers five kinds of request.  Every
    request is appended, with its reply, to an append-only trace.  Whether a
    request fails is decided by an `Oracle` consulted with the request's
    position in the trace, so the same program can be studied under every
    pattern of faults.
 */
module Runtime {

  /** The role a pipeline container plays, as recorded under the type label. */
  datatype ContainerType = InputContainer | StepContainer | DataContainer | OutputContainer

  /** A container label, reduced to the two keys the exit path selects on.
      `JobLabel(id)` is the job label key set to an invocation id;
      `TypeLabel(kind)` is the type label key set to the code of `kind`. */
  datatype Label =
    | JobLabel(invocationId: string)
    | TypeLabel(kind: ContainerType)
    | OtherLabel(key: string, value: string)

  datatype Container = Container(id: string, labels: set<Label>)

  datatype Image = Image(name: string, tag: string)

  /** The calls the exit path makes on the runtime client. */
  datatype Request =
    | VolumeExists(volume: string)
    | RemoveVolume(volume: string)
    | ContainersWithLabel(selector: Label)
    | NukeContainer(container: string)
    | NukeImage(image: Image)

  /** What a call hands back: every reply says whether the call failed. */
  datatype Reply =
    | Presence(present: bool, failed: bool)
    | Listing(ids: seq<string>, failed: bool)
    | Outcome(failed: bool)

  datatype Call = Call(request: Request, reply: Reply)

  /** Fault injection.  The call at trace position `k` fails when `fails(k)`;
      a failed existence check or listing still hands back a value, given by
      `presentOnError(k)` and `listedOnError(k)`. */
  datatype Oracle = Oracle(fails: nat -> bool, presentOnError: nat -> bool, listedOnError: nat -> seq<string>)

  /** An oracle under which no call fails of its own accord. */
  ghost predicate Reliable(o: Oracle)
  {
    forall k: nat :: !o.fails(k)
  }

  datatype State = State(containers: seq<Container>, volumes: set<string>, images: set<Image>, trace: seq<Call>)

  /** No two different containers share an id. */
  predicate UniqueIds(cs: seq<Container>)
  {
    forall c, d | c in cs && d in cs && c.id == d.id :: c == d
  }

  predicate Holds(cs: seq<Container>, id: string)
  {
    exists c :: c in cs && c.id == id
  }

  /** The ids of the containers carrying `selector`, in the runtime's order. */
  function Labelled(cs: seq<Container>, selector: Label): (ids: seq<string>)
    ensures |ids| <= |cs|
    ensures forall x :: x in ids <==> exists c :: c in cs && c.id == x && selector in c.labels
  {
    if cs == [] then []
    else
      assert forall c :: c in cs <==> c == cs[0] || c in cs[1..];
      (if selector in cs[0].labels then [cs[0].id] else []) + Labelled(cs[1..], selector)
  }

  /** `cs` with the container called `id` taken out. */
  function Without(cs: seq<Container>, id: string): (r: seq<Container>)
    ensures forall c :: c in r <==> c in cs && c.id != id
  {
    if cs == [] then []
    else
      assert forall c :: c in cs <==> c == cs[0] || c in cs[1..];
      (if cs[0].id == id then [] else [cs[0]]) + Without(cs[1..], id)
  }

  /** The runtime's answer to `q` in state `s`. */
  function Respond(o: Oracle, s: State, q: Request): (r: Reply)
    ensures q.VolumeExists? <==> r.Presence?
    ensures q.ContainersWithLabel? <==> r.Listing?
    ensures r.failed <== o.fails(|s.trace|)
    ensures q.NukeContainer? && !Holds(s.containers, q.container) ==> r.failed
  {
    var k := |s.trace|;
    var fault := o.fails(k);
    match q
    case VolumeExists(v) =>
      if fault then Presence(o.presentOnError(k), true) else Presence(v in s.volumes, false)
    case RemoveVolume(v) => Outcome(fault || v !in s.volumes)
    case ContainersWithLabel(l) =>
      if fault then Listing(o.listedOnError(k), true) else Listing(Labelled(s.containers, l), false)
    case NukeContainer(c) => Outcome(fault || !Holds(s.containers, c))
    case NukeImage(i) => Outcome(fault || i !in s.images)
  }

  /** The state after the runtime has served `q`: a failed call changes
      nothing but the trace; only removals change the store, and each only
      the resource it names. */
  function Apply(o: Oracle, s: State, q: Request): (s': State)
    ensures s'.trace == s.trace + [Call(q, Respond(o, s, q))]
    ensures !q.NukeContainer? ==> s'.containers == s.containers
    ensures forall c :: c in s'.containers <==> c in s.containers && !(q.NukeContainer? && !Respond(o, s, q).failed && c.id == q.container)
    ensures s'.volumes == if q.RemoveVolume? && !Respond(o, s, q).failed then s.volumes - {q.volume} else s.volumes
    ensures s'.images == if q.NukeImage? && !Respond(o, s, q).failed then s.images - {q.image} else s.images
  {
    var r := Respond(o, s, q);
    var t := s.trace + [Call(q, r)];
    if r.failed then s.(trace := t)
    else
      match q
      case RemoveVolume(v) => s.(volumes := s.volumes - {v}, trace := t)
      case NukeContainer(c) => s.(containers := Without(s.containers, c), trace := t)
      case NukeImage(i) => s.(images := s.images - {i}, trace := t)
      case _ => s.(trace := t)
  }

  /** The client handle: the runtime's store and the log of calls made on it. */
  class Client {
    const oracle: Oracle
    var containers: seq<Container>
    var volumes: set<string>
    var images: set<Image>
    var trace: seq<Call>

    function Snapshot(): State
      reads this
    {
      State(containers, volumes, images, trace)
    }

    constructor (oracle: Oracle, init: State)
      ensures this.oracle == oracle && Snapshot() == init
    {
      this.oracle := oracle;
      containers, volumes, images, trace := init.containers, init.volumes, init.images, init.trace;
    }

    /** Serves one request and logs it. */
    method Perform(q: Request) returns (r: Reply)
      modifies this
      ensures r == Respond(oracle, old(Snapshot()), q)
      ensures Snapshot() == Apply(oracle, old(Snapshot()), q)
    {
      r := Respond(oracle, Snapshot(), q);
      if !r.failed {
        match q {
          case RemoveVolume(v) => volumes := volumes - {v};
          case NukeContainer(c) => containers := Without(containers, c);
          case NukeImage(i) => images := images - {i};
          case _ =>
        }
      }
      trace := trace + [Call(q, r)];
    }
  }
}
