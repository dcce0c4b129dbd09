/** What the exit routines guarantee, for every runtime state and every
    pattern of faults.

    The call sequence is stated against a small grammar of routines: `Follows(t,
    plan)` holds when the calls `t` are, in order, one segment per routine of
    `plan`.  A segment's shape depends only on the requests and on the replies
    to listings and existence checks, never on whether a removal failed, so a
    trace that follows its plan has attempted every removal of every routine.
 */
module ExitProperties {
  import opened Runtime
  import opened Exit

  /* ---------- The grammar of routine segments ---------- */

  datatype Routine =
    | DataImages(descriptors: seq<DataDescriptor>)
    | Sweep(selector: Label, resetOnError: bool)
    | VolumeTeardown(volume: string)

  /** `seg` is exactly the calls of one run of routine `r`. */
  predicate Performs(seg: seq<Call>, r: Routine)
  {
    match r
    case DataImages(dcs) =>
      |seg| == |dcs| && forall i :: 0 <= i < |dcs| ==> seg[i].request == NukeImage(ImageOf(dcs[i]))
    case Sweep(l, reset) =>
      |seg| >= 1 && seg[0].request == ContainersWithLabel(l) && seg[0].reply.Listing? &&
      var ts := Targets(seg[0].reply, reset);
      |seg| == 1 + |ts| && forall i :: 0 <= i < |ts| ==> seg[1 + i].request == NukeContainer(ts[i])
    case VolumeTeardown(v) =>
      |seg| >= 1 && seg[0].request == VolumeExists(v) && seg[0].reply.Presence? &&
      if seg[0].reply.present then |seg| == 2 && seg[1].request == Request.RemoveVolume(v)
      else |seg| == 1
  }

  /** How many calls at the head of `t` a run of `r` would take. */
  function Extent(t: seq<Call>, r: Routine): nat
  {
    match r
    case DataImages(dcs) => |dcs|
    case Sweep(_, reset) => if t == [] then 1 else 1 + |Targets(t[0].reply, reset)|
    case VolumeTeardown(_) => if t != [] && t[0].reply.Presence? && t[0].reply.present then 2 else 1
  }

  /** `t` is one segment per routine of `plan`, in order, and nothing else. */
  predicate Follows(t: seq<Call>, plan: seq<Routine>)
    decreases |plan|
  {
    if plan == [] then t == []
    else
      var n := Extent(t, plan[0]);
      n <= |t| && Performs(t[..n], plan[0]) && Follows(t[n..], plan[1..])
  }

  ghost predicate Extends(t: seq<Call>, t': seq<Call>)
  {
    |t| <= |t'| && t'[..|t|] == t
  }

  /** A routine's extent is read off the head of the trace, so calls after
      its segment do not change it. */
  lemma ExtentOfPrefix(a: seq<Call>, b: seq<Call>, r: Routine)
    requires Extent(a, r) <= |a| && Performs(a[..Extent(a, r)], r)
    ensures Extent(a + b, r) == Extent(a, r)
  {
  }

  /** Following two plans one after the other is following their concatenation. */
  lemma {:induction false} FollowsAppend(a: seq<Call>, b: seq<Call>, p: seq<Routine>, q: seq<Routine>)
    requires Follows(a, p) && Follows(b, q)
    ensures Follows(a + b, p + q)
    decreases |p|
  {
    if p == [] {
      assert a + b == b && p + q == q;
    } else {
      var n := Extent(a, p[0]);
      FollowsAppend(a[n..], b, p[1..], q);
      ExtentOfPrefix(a, b, p[0]);
      assert (a + b)[..n] == a[..n];
      assert (a + b)[n..] == a[n..] + b;
      assert (p + q)[0] == p[0];
      assert (p + q)[1..] == p[1..] + q;
    }
  }

  /** Glues the calls of one plan in front of the calls of the next. */
  lemma Compose(t0: seq<Call>, t1: seq<Call>, t2: seq<Call>, p: seq<Routine>, q: seq<Routine>)
    requires Extends(t0, t1) && Extends(t1, t2)
    requires Follows(t1[|t0|..], p) && Follows(t2[|t1|..], q)
    ensures Extends(t0, t2) && Follows(t2[|t0|..], p + q)
  {
    assert t2[..|t0|] == t1[..|t0|];
    assert t2[|t0|..] == t1[|t0|..] + t2[|t1|..];
    FollowsAppend(t1[|t0|..], t2[|t1|..], p, q);
  }

  /** One routine's segment is a one-step plan. */
  lemma Single(seg: seq<Call>, r: Routine)
    requires Performs(seg, r)
    ensures Follows(seg, [r])
  {
  }

  /* ---------- Each routine performs its segment ---------- */

  /** RemoveVolume: an existence check, then a removal exactly when the check
      reported the volume present. */
  lemma VolumeRemovedPerforms(o: Oracle, s: State, id: string)
    ensures var s' := VolumeRemoved(o, s, id);
      Extends(s.trace, s'.trace) && Performs(s'.trace[|s.trace|..], VolumeTeardown(id))
  {
  }

  /** A container routine: one listing, then one forced removal per target, in
      the listing's order. */
  lemma SweptPerforms(o: Oracle, s: State, l: Label, reset: bool)
    ensures var s' := Swept(o, s, l, reset);
      Extends(s.trace, s'.trace) && Performs(s'.trace[|s.trace|..], Sweep(l, reset))
  {
  }

  /** RemoveDataContainerImages: one image removal per descriptor, in order. */
  lemma ImagesNukedPerforms(o: Oracle, s: State, dcs: seq<DataDescriptor>)
    ensures var s' := ImagesNuked(o, s, dcs);
      Extends(s.trace, s'.trace) && Performs(s'.trace[|s.trace|..], DataImages(dcs))
  {
  }

  /* ---------- The call sequences of Exit and cleanup ---------- */

  /** cleanup: input, step and data containers, then the volume; no image
      removal and no sweep by invocation id. */
  function CleanupPlan(id: string): seq<Routine>
  {
    [Sweep(TypeLabel(InputContainer), true),
     Sweep(TypeLabel(StepContainer), false),
     Sweep(TypeLabel(DataContainer), false),
     VolumeTeardown(id)]
  }

  /** Killed: data-container images, input, step and data containers, the
      volume, then the sweep of the invocation's containers. */
  function KilledPlan(job: Job): seq<Routine>
  {
    [DataImages(job.dataContainers)] + CleanupPlan(job.invocationId) + [Sweep(JobLabel(job.invocationId), true)]
  }

  /** Any other code: the sweep of the invocation's containers, then the
      volume. */
  function OtherPlan(id: string): seq<Routine>
  {
    [Sweep(JobLabel(id), true), VolumeTeardown(id)]
  }

  /** cleanup: input, step and data containers, then the volume; no image
      removal and no sweep by invocation id. */
  lemma CleanupCallSequence(o: Oracle, s: State, job: Job)
    ensures var s' := CleanedUp(o, s, job);
      Extends(s.trace, s'.trace) && Follows(s'.trace[|s.trace|..], CleanupPlan(job.invocationId))
  {
    var id := job.invocationId;
    var s1 := Swept(o, s, TypeLabel(InputContainer), true);
    var s2 := Swept(o, s1, TypeLabel(StepContainer), false);
    var s3 := Swept(o, s2, TypeLabel(DataContainer), false);
    var s4 := VolumeRemoved(o, s3, id);
    SweptPerforms(o, s, TypeLabel(InputContainer), true);
    SweptPerforms(o, s1, TypeLabel(StepContainer), false);
    SweptPerforms(o, s2, TypeLabel(DataContainer), false);
    VolumeRemovedPerforms(o, s3, id);
    Chain4(s.trace, s1.trace, s2.trace, s3.trace, s4.trace,
           Sweep(TypeLabel(InputContainer), true), Sweep(TypeLabel(StepContainer), false),
           Sweep(TypeLabel(DataContainer), false), VolumeTeardown(id));
  }

  /** Four consecutive segments follow the four-routine plan. */
  lemma Chain4(t0: seq<Call>, t1: seq<Call>, t2: seq<Call>, t3: seq<Call>, t4: seq<Call>,
               r1: Routine, r2: Routine, r3: Routine, r4: Routine)
    requires Extends(t0, t1) && Performs(t1[|t0|..], r1)
    requires Extends(t1, t2) && Performs(t2[|t1|..], r2)
    requires Extends(t2, t3) && Performs(t3[|t2|..], r3)
    requires Extends(t3, t4) && Performs(t4[|t3|..], r4)
    ensures Extends(t0, t4) && Follows(t4[|t0|..], [r1, r2, r3, r4])
  {
    Single(t1[|t0|..], r1);
    Single(t2[|t1|..], r2);
    Single(t3[|t2|..], r3);
    Single(t4[|t3|..], r4);
    Compose(t0, t1, t2, [r1], [r2]);
    Compose(t0, t2, t3, [r1] + [r2], [r3]);
    Compose(t0, t3, t4, [r1] + [r2] + [r3], [r4]);
    assert [r1] + [r2] + [r3] + [r4] == [r1, r2, r3, r4];
  }

  /** The kill branch is the cleanup routine, preceded by the removal of the
      data-container images and followed by the sweep of the invocation's
      containers. */
  lemma KillExtendsCleanup(o: Oracle, s: State, job: Job)
    ensures Exited(o, s, job, StatusKilled) ==
      Swept(o, CleanedUp(o, ImagesNuked(o, s, job.dataContainers), job), JobLabel(job.invocationId), true)
  {
  }

  /** Killed: data-container images, input, step and data containers, the
      volume, then the sweep of the invocation's containers. */
  lemma KilledCallSequence(o: Oracle, s: State, job: Job)
    ensures var s' := Exited(o, s, job, StatusKilled);
      Extends(s.trace, s'.trace) &&
      Follows(s'.trace[|s.trace|..], KilledPlan(job))
  {
    var id := job.invocationId;
    var s1 := ImagesNuked(o, s, job.dataContainers);
    var s5 := CleanedUp(o, s1, job);
    var s6 := Swept(o, s5, JobLabel(id), true);
    var cleanup := CleanupPlan(id);
    KillExtendsCleanup(o, s, job);
    ImagesNukedPerforms(o, s, job.dataContainers);
    Single(s1.trace[|s.trace|..], DataImages(job.dataContainers));
    CleanupCallSequence(o, s1, job);
    Compose(s.trace, s1.trace, s5.trace, [DataImages(job.dataContainers)], cleanup);
    SweptPerforms(o, s5, JobLabel(id), true);
    Single(s6.trace[|s5.trace|..], Sweep(JobLabel(id), true));
    Compose(s.trace, s5.trace, s6.trace, [DataImages(job.dataContainers)] + cleanup, [Sweep(JobLabel(id), true)]);
  }

  /** Any other code: the sweep of the invocation's containers, then the
      volume, and nothing else. */
  lemma OtherCallSequence(o: Oracle, s: State, job: Job, n: int)
    ensures var s' := Exited(o, s, job, StatusOther(n));
      Extends(s.trace, s'.trace) &&
      Follows(s'.trace[|s.trace|..], OtherPlan(job.invocationId))
  {
    var id := job.invocationId;
    var s1 := Swept(o, s, JobLabel(id), true);
    var s2 := VolumeRemoved(o, s1, id);
    SweptPerforms(o, s, JobLabel(id), true);
    VolumeRemovedPerforms(o, s1, id);
    Single(s1.trace[|s.trace|..], Sweep(JobLabel(id), true));
    Single(s2.trace[|s1.trace|..], VolumeTeardown(id));
    Compose(s.trace, s1.trace, s2.trace, [Sweep(JobLabel(id), true)], [VolumeTeardown(id)]);
  }

  /* ---------- Listing failures ---------- */

  /** When the listing fails, a routine that resets its result makes no other
      call and changes nothing; one that does not reset nukes every id the
      failed listing still handed back. */
  lemma ListingFailure(o: Oracle, s: State, l: Label, reset: bool)
    requires o.fails(|s.trace|)
    ensures var s' := Swept(o, s, l, reset);
      var handedBack := o.listedOnError(|s.trace|);
      if reset then
        |s'.trace| == |s.trace| + 1 && s'.containers == s.containers
      else
        |s'.trace| == |s.trace| + 1 + |handedBack| &&
        forall i :: 0 <= i < |handedBack| ==> s'.trace[|s.trace| + 1 + i].request == NukeContainer(handedBack[i])
  {
  }

  /* ---------- Effects on the store ---------- */

  /** Nuking only ever takes away containers, and only those named. */
  lemma {:induction false} NukedOnlyNamed(o: Oracle, s: State, ids: seq<string>)
    ensures var s' := ContainersNuked(o, s, ids);
      s'.volumes == s.volumes && s'.images == s.images &&
      (forall c :: c in s'.containers ==> c in s.containers) &&
      (forall c :: c in s.containers && c !in s'.containers ==> c.id in ids)
    decreases |ids|
  {
    if ids != [] {
      var n := |ids| - 1;
      NukedOnlyNamed(o, s, ids[..n]);
      assert forall x :: x in ids[..n] ==> x in ids;
    }
  }

  /** With no faults, nuking removes exactly the named containers. */
  lemma {:induction false} NukedReliably(o: Oracle, s: State, ids: seq<string>)
    requires Reliable(o)
    ensures forall c :: c in ContainersNuked(o, s, ids).containers <==> c in s.containers && c.id !in ids
    decreases |ids|
  {
    if ids != [] {
      var n := |ids| - 1;
      var s0 := ContainersNuked(o, s, ids[..n]);
      NukedReliably(o, s, ids[..n]);
      assert !o.fails(|s0.trace|);
      assert ids == ids[..n] + [ids[n]];
      forall c | c in s0.containers
        ensures c in Apply(o, s0, NukeContainer(ids[n])).containers <==> c.id != ids[n]
      {
        if c.id == ids[n] {
          assert Holds(s0.containers, ids[n]);
        }
      }
    }
  }

  /** Any fault pattern: a sweep leaves volumes and images alone and takes
      away only containers, so ids stay unique; when ids are unique and it
      resets on error, or its listing did not fail, every container it takes
      away carries the selector. */
  lemma SweptEffect(o: Oracle, s: State, l: Label, reset: bool)
    ensures var s' := Swept(o, s, l, reset);
      s'.volumes == s.volumes && s'.images == s.images &&
      (UniqueIds(s.containers) ==> UniqueIds(s'.containers)) &&
      (forall c :: c in s'.containers ==> c in s.containers) &&
      (UniqueIds(s.containers) && (reset || !o.fails(|s.trace|)) ==>
        forall c :: c in s.containers && c !in s'.containers ==> l in c.labels)
  {
    var listing := Respond(o, s, ContainersWithLabel(l));
    var s1 := Apply(o, s, ContainersWithLabel(l));
    NukedOnlyNamed(o, s1, Targets(listing, reset));
  }

  /** No faults: a sweep removes exactly the containers carrying the selector. */
  lemma ReliableSweep(o: Oracle, s: State, l: Label, reset: bool)
    requires Reliable(o) && UniqueIds(s.containers)
    ensures var s' := Swept(o, s, l, reset);
      (forall c :: c in s'.containers <==> c in s.containers && l !in c.labels) &&
      s'.volumes == s.volumes && s'.images == s.images && UniqueIds(s'.containers)
  {
    var s1 := Apply(o, s, ContainersWithLabel(l));
    assert !o.fails(|s.trace|);
    var ids := Labelled(s.containers, l);
    NukedReliably(o, s1, ids);
    SweptEffect(o, s, l, reset);
  }

  /** Any fault pattern: only the named volume can go; with no faults it does. */
  lemma VolumeRemovedEffect(o: Oracle, s: State, id: string)
    ensures var s' := VolumeRemoved(o, s, id);
      s'.containers == s.containers && s'.images == s.images &&
      s.volumes - {id} <= s'.volumes <= s.volumes &&
      (Reliable(o) ==> s'.volumes == s.volumes - {id})
  {
  }

  function ImageSet(dcs: seq<DataDescriptor>): set<Image>
  {
    set dc | dc in dcs :: ImageOf(dc)
  }

  /** Any fault pattern: only the descriptors' images can go; with no faults
      they all do. */
  lemma {:induction false} ImagesNukedEffect(o: Oracle, s: State, dcs: seq<DataDescriptor>)
    ensures var s' := ImagesNuked(o, s, dcs);
      s'.containers == s.containers && s'.volumes == s.volumes &&
      s.images - ImageSet(dcs) <= s'.images <= s.images &&
      (Reliable(o) ==> s'.images == s.images - ImageSet(dcs))
    decreases |dcs|
  {
    if dcs != [] {
      var n := |dcs| - 1;
      var s0 := ImagesNuked(o, s, dcs[..n]);
      ImagesNukedEffect(o, s, dcs[..n]);
      assert dcs == dcs[..n] + [dcs[n]];
      assert ImageSet(dcs) == ImageSet(dcs[..n]) + {ImageOf(dcs[n])};
      if Reliable(o) {
        assert !o.fails(|s0.trace|);
      }
    }
  }

  /* ---------- What Exit and cleanup leave behind ---------- */

  /** The containers the Killed branch selects: this invocation's, and every
      input, step and data container of any invocation. */
  predicate ReapedOnKill(c: Container, id: string)
  {
    || JobLabel(id) in c.labels
    || TypeLabel(InputContainer) in c.labels
    || TypeLabel(StepContainer) in c.labels
    || TypeLabel(DataContainer) in c.labels
  }

  lemma KilledExitReliable(o: Oracle, s: State, job: Job)
    requires Reliable(o) && UniqueIds(s.containers)
    ensures var s' := Exited(o, s, job, StatusKilled);
      (forall c :: c in s'.containers <==> c in s.containers && !ReapedOnKill(c, job.invocationId)) &&
      s'.volumes == s.volumes - {job.invocationId} &&
      s'.images == s.images - ImageSet(job.dataContainers) &&
      UniqueIds(s'.containers)
  {
    var id := job.invocationId;
    var s1 := ImagesNuked(o, s, job.dataContainers);
    ImagesNukedEffect(o, s, job.dataContainers);
    var s2 := Swept(o, s1, TypeLabel(InputContainer), true);
    ReliableSweep(o, s1, TypeLabel(InputContainer), true);
    var s3 := Swept(o, s2, TypeLabel(StepContainer), false);
    ReliableSweep(o, s2, TypeLabel(StepContainer), false);
    var s4 := Swept(o, s3, TypeLabel(DataContainer), false);
    ReliableSweep(o, s3, TypeLabel(DataContainer), false);
    var s5 := VolumeRemoved(o, s4, id);
    VolumeRemovedEffect(o, s4, id);
    ReliableSweep(o, s5, JobLabel(id), true);
  }

  lemma OtherExitReliable(o: Oracle, s: State, job: Job, n: int)
    requires Reliable(o) && UniqueIds(s.containers)
    ensures var s' := Exited(o, s, job, StatusOther(n));
      (forall c :: c in s'.containers <==> c in s.containers && JobLabel(job.invocationId) !in c.labels) &&
      s'.volumes == s.volumes - {job.invocationId} &&
      s'.images == s.images &&
      UniqueIds(s'.containers)
  {
    var id := job.invocationId;
    ReliableSweep(o, s, JobLabel(id), true);
    VolumeRemovedEffect(o, Swept(o, s, JobLabel(id), true), id);
  }

  /** Any fault pattern: a non-kill exit touches only this invocation's
      containers and volume, and no image. */
  lemma OtherExitScoped(o: Oracle, s: State, job: Job, n: int)
    requires UniqueIds(s.containers)
    ensures var s' := Exited(o, s, job, StatusOther(n));
      (forall c :: c in s'.containers ==> c in s.containers) &&
      (forall c :: c in s.containers && c !in s'.containers ==> JobLabel(job.invocationId) in c.labels) &&
      s.volumes - {job.invocationId} <= s'.volumes <= s.volumes &&
      s'.images == s.images
  {
    var id := job.invocationId;
    SweptEffect(o, s, JobLabel(id), true);
    VolumeRemovedEffect(o, Swept(o, s, JobLabel(id), true), id);
  }

  /** Any fault pattern: cleanup removes no image and no volume but the
      invocation's, and only takes containers away. */
  lemma CleanupKeepsImages(o: Oracle, s: State, job: Job)
    ensures var s' := CleanedUp(o, s, job);
      s'.images == s.images && s.volumes - {job.invocationId} <= s'.volumes <= s.volumes &&
      (forall c :: c in s'.containers ==> c in s.containers)
  {
    var s1 := Swept(o, s, TypeLabel(InputContainer), true);
    SweptEffect(o, s, TypeLabel(InputContainer), true);
    var s2 := Swept(o, s1, TypeLabel(StepContainer), false);
    SweptEffect(o, s1, TypeLabel(StepContainer), false);
    var s3 := Swept(o, s2, TypeLabel(DataContainer), false);
    SweptEffect(o, s2, TypeLabel(DataContainer), false);
    VolumeRemovedEffect(o, s3, job.invocationId);
  }

  /** With no faults, a second exit with the same code removes nothing more. */
  lemma ExitIdempotent(o: Oracle, s: State, job: Job, code: StatusCode)
    requires Reliable(o) && UniqueIds(s.containers)
    ensures var s' := Exited(o, s, job, code);
      var s'' := Exited(o, s', job, code);
      (forall c :: c in s''.containers <==> c in s'.containers) &&
      s''.volumes == s'.volumes && s''.images == s'.images
  {
    if code.StatusKilled? {
      KilledIdempotent(o, s, job);
    } else {
      OtherIdempotent(o, s, job, code.code);
    }
  }

  lemma KilledIdempotent(o: Oracle, s: State, job: Job)
    requires Reliable(o) && UniqueIds(s.containers)
    ensures var s' := Exited(o, s, job, StatusKilled);
      var s'' := Exited(o, s', job, StatusKilled);
      (forall c :: c in s''.containers <==> c in s'.containers) &&
      s''.volumes == s'.volumes && s''.images == s'.images
  {
    KilledExitReliable(o, s, job);
    KilledExitReliable(o, Exited(o, s, job, StatusKilled), job);
  }

  lemma OtherIdempotent(o: Oracle, s: State, job: Job, n: int)
    requires Reliable(o) && UniqueIds(s.containers)
    ensures var s' := Exited(o, s, job, StatusOther(n));
      var s'' := Exited(o, s', job, StatusOther(n));
      (forall c :: c in s''.containers <==> c in s'.containers) &&
      s''.volumes == s'.volumes && s''.images == s'.images
  {
    OtherExitReliable(o, s, job, n);
    OtherExitReliable(o, Exited(o, s, job, StatusOther(n)), job, n);
  }

  /** The type selectors are not scoped by invocation id: with no faults, a
      kill removes a step container of another invocation, which a normal
      exit leaves in place. */
  lemma TypeSweepsIgnoreInvocation(o: Oracle, s: State, job: Job, c: Container, n: int)
    requires Reliable(o) && UniqueIds(s.containers) && c in s.containers
    requires TypeLabel(StepContainer) in c.labels && JobLabel(job.invocationId) !in c.labels
    ensures c !in Exited(o, s, job, StatusKilled).containers
    ensures c in Exited(o, s, job, StatusOther(n)).containers
  {
    KilledExitReliable(o, s, job);
    OtherExitReliable(o, s, job, n);
  }

  /** The comment on the kill branch lets the output containers run on, but
      its last step sweeps every container of the invocation: with no faults
      a kill removes this invocation's output containers too. */
  lemma KillReapsOutputContainers(o: Oracle, s: State, job: Job, c: Container)
    requires Reliable(o) && UniqueIds(s.containers) && c in s.containers
    requires JobLabel(job.invocationId) in c.labels && TypeLabel(OutputContainer) in c.labels
    ensures c !in Exited(o, s, job, StatusKilled).containers
  {
    KilledExitReliable(o, s, job);
  }
}
