/** The teardown routines run when a job ends, and the exit orchestrator that
    picks among them by the status code it receives.

    Each routine is a method on the runtime client.  Its postcondition ties the
    client's new state to a function of the old one (`VolumeRemoved`, `Swept`,
    `ImagesNuked`, `CleanedUp`, `Exited`); what those functions guarantee is
    proved in module ExitProperties.
 */
module Exit {
  import opened Runtime

  /** A data-container descriptor of the job: the image it runs. */
  datatype DataDescriptor = DataDescriptor(name: string, tag: string)

  /** The parts of the job the exit path reads. */
  datatype Job = Job(invocationId: string, dataContainers: seq<DataDescriptor>)

  /** The status code sent on the exit channel; only `StatusKilled` is told
      apart, `StatusOther` stands for every other code. */
  datatype StatusCode = StatusKilled | StatusOther(code: int)

  function ImageOf(dc: DataDescriptor): Image
  {
    Image(dc.name, dc.tag)
  }

  /* ---------- Specification functions on the runtime's state ---------- */

  /** Existence check, then a removal only if the check reported the volume
      present, whether or not the check itself failed. */
  function VolumeRemoved(o: Oracle, s: State, id: string): State
  {
    var check := Respond(o, s, VolumeExists(id));
    var s1 := Apply(o, s, VolumeExists(id));
    if check.present then Apply(o, s1, Request.RemoveVolume(id)) else s1
  }

  /** One forced removal per entry of `ids`, in order, whatever each returns. */
  function ContainersNuked(o: Oracle, s: State, ids: seq<string>): (s': State)
    ensures |s'.trace| == |s.trace| + |ids| && s'.trace[..|s.trace|] == s.trace
    ensures forall i :: 0 <= i < |ids| ==> s'.trace[|s.trace| + i].request == NukeContainer(ids[i])
    decreases |ids|
  {
    if ids == [] then s
    else
      var n := |ids| - 1;
      Apply(o, ContainersNuked(o, s, ids[..n]), NukeContainer(ids[n]))
  }

  /** The containers a removal loop visits after a listing: the listed ids,
      or none when the listing failed and the routine resets its result. */
  function Targets(listing: Reply, resetOnError: bool): seq<string>
  {
    if listing.Listing? && !(resetOnError && listing.failed) then listing.ids else []
  }

  /** List the containers carrying `selector`, then nuke the targets. */
  function Swept(o: Oracle, s: State, selector: Label, resetOnError: bool): State
  {
    var listing := Respond(o, s, ContainersWithLabel(selector));
    ContainersNuked(o, Apply(o, s, ContainersWithLabel(selector)), Targets(listing, resetOnError))
  }

  /** One image removal per data-container descriptor, in order. */
  function ImagesNuked(o: Oracle, s: State, dcs: seq<DataDescriptor>): (s': State)
    ensures |s'.trace| == |s.trace| + |dcs| && s'.trace[..|s.trace|] == s.trace
    ensures forall i :: 0 <= i < |dcs| ==> s'.trace[|s.trace| + i].request == NukeImage(ImageOf(dcs[i]))
    decreases |dcs|
  {
    if dcs == [] then s
    else
      var n := |dcs| - 1;
      Apply(o, ImagesNuked(o, s, dcs[..n]), NukeImage(ImageOf(dcs[n])))
  }

  function CleanedUp(o: Oracle, s: State, job: Job): State
  {
    var s1 := Swept(o, s, TypeLabel(InputContainer), true);
    var s2 := Swept(o, s1, TypeLabel(StepContainer), false);
    var s3 := Swept(o, s2, TypeLabel(DataContainer), false);
    VolumeRemoved(o, s3, job.invocationId)
  }

  function Exited(o: Oracle, s: State, job: Job, code: StatusCode): State
  {
    var id := job.invocationId;
    match code
    case StatusKilled =>
      var s1 := ImagesNuked(o, s, job.dataContainers);
      var s2 := Swept(o, s1, TypeLabel(InputContainer), true);
      var s3 := Swept(o, s2, TypeLabel(StepContainer), false);
      var s4 := Swept(o, s3, TypeLabel(DataContainer), false);
      var s5 := VolumeRemoved(o, s4, id);
      Swept(o, s5, JobLabel(id), true)
    case StatusOther(_) =>
      VolumeRemoved(o, Swept(o, s, JobLabel(id), true), id)
  }

  /* ---------- The routines ---------- */

  method RemoveVolume(rt: Client, id: string)
    modifies rt
    ensures rt.Snapshot() == VolumeRemoved(rt.oracle, old(rt.Snapshot()), id)
  {
    var check := rt.Perform(VolumeExists(id));
    if check.present {
      var outcome := rt.Perform(Request.RemoveVolume(id));
    }
  }

  /** The removal loop shared by the four container routines: every id is
      nuked once, in order, and a failure does not stop the loop. */
  method NukeContainers(rt: Client, ids: seq<string>)
    modifies rt
    ensures rt.Snapshot() == ContainersNuked(rt.oracle, old(rt.Snapshot()), ids)
  {
    for i := 0 to |ids|
      invariant rt.Snapshot() == ContainersNuked(rt.oracle, old(rt.Snapshot()), ids[..i])
    {
      var outcome := rt.Perform(NukeContainer(ids[i]));
      assert ids[..i + 1][..i] == ids[..i];
    }
    assert ids[..|ids|] == ids;
  }

  method RemoveJobContainers(rt: Client, id: string)
    modifies rt
    ensures rt.Snapshot() == Swept(rt.oracle, old(rt.Snapshot()), JobLabel(id), true)
  {
    var listing := rt.Perform(ContainersWithLabel(JobLabel(id)));
    var jobContainers := listing.ids;
    if listing.failed {
      jobContainers := [];
    }
    NukeContainers(rt, jobContainers);
  }

  method RemoveDataContainers(rt: Client)
    modifies rt
    ensures rt.Snapshot() == Swept(rt.oracle, old(rt.Snapshot()), TypeLabel(DataContainer), false)
  {
    var listing := rt.Perform(ContainersWithLabel(TypeLabel(DataContainer)));
    NukeContainers(rt, listing.ids);
  }

  method RemoveStepContainers(rt: Client)
    modifies rt
    ensures rt.Snapshot() == Swept(rt.oracle, old(rt.Snapshot()), TypeLabel(StepContainer), false)
  {
    var listing := rt.Perform(ContainersWithLabel(TypeLabel(StepContainer)));
    NukeContainers(rt, listing.ids);
  }

  method RemoveInputContainers(rt: Client)
    modifies rt
    ensures rt.Snapshot() == Swept(rt.oracle, old(rt.Snapshot()), TypeLabel(InputContainer), true)
  {
    var listing := rt.Perform(ContainersWithLabel(TypeLabel(InputContainer)));
    var inputContainers := listing.ids;
    if listing.failed {
      inputContainers := [];
    }
    NukeContainers(rt, inputContainers);
  }

  method RemoveDataContainerImages(rt: Client, job: Job)
    modifies rt
    ensures rt.Snapshot() == ImagesNuked(rt.oracle, old(rt.Snapshot()), job.dataContainers)
  {
    var dcs := job.dataContainers;
    for i := 0 to |dcs|
      invariant rt.Snapshot() == ImagesNuked(rt.oracle, old(rt.Snapshot()), dcs[..i])
    {
      var outcome := rt.Perform(NukeImage(ImageOf(dcs[i])));
      assert dcs[..i + 1][..i] == dcs[..i];
    }
    assert dcs[..|dcs|] == dcs;
  }

  /** The common clean-up tasks of a job, done aggressively. */
  method Cleanup(rt: Client, job: Job)
    modifies rt
    ensures rt.Snapshot() == CleanedUp(rt.oracle, old(rt.Snapshot()), job)
  {
    RemoveInputContainers(rt);
    RemoveStepContainers(rt);
    RemoveDataContainers(rt);
    RemoveVolume(rt, job.invocationId);
  }

  /** Takes the code received on the exit channel, tears down, and returns the
      code to send on the final-exit channel: always the one received. */
  method Exit(rt: Client, job: Job, received: StatusCode) returns (sent: StatusCode)
    modifies rt
    ensures sent == received
    ensures rt.Snapshot() == Exited(rt.oracle, old(rt.Snapshot()), job, received)
  {
    match received {
      case StatusKilled =>
        RemoveDataContainerImages(rt, job);
        RemoveInputContainers(rt);
        RemoveStepContainers(rt);
        RemoveDataContainers(rt);
        RemoveVolume(rt, job.invocationId);
        RemoveJobContainers(rt, job.invocationId);
      case StatusOther(_) =>
        RemoveJobContainers(rt, job.invocationId);
        RemoveVolume(rt, job.invocationId);
    }
    sent := received;
  }
}
