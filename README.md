# Job-exit teardown of the road-runner agent, in Dafny

road-runner runs a job's pipeline as a sequence of Docker containers. When the
job ends, `Exit` receives one status code on the exit channel. It tears down the
job's resources and sends the same code on the final-exit channel. There are two
branches:

- On `StatusKilled` it removes the data-container images, the input, step and
  data containers, the invocation's volume, and then every container labelled
  with the invocation id.
- On any other code it removes the invocation's containers and then its volume.

`cleanup` gathers the job's common clean-up tasks into one aggressive routine.
It removes the input, step and data containers and then the volume.

Every teardown primitive is best effort. A failed call is logged and the next
call is made anyway.

The model has three modules.

- `Runtime` (runtime.dfy) stands for the Docker client.
  - `Client` is a class holding the containers (an ordered sequence of ids with
    label sets), the volumes, the images and an append-only trace of every call
    made with its reply.
  - Every call goes through `Client.Perform`, which is specified by the pure step
    functions `Respond` and `Apply`.
  - Whether the call at trace position `k` fails is decided by an `Oracle`. The
    oracle also supplies what a failed existence check or listing still hands
    back. Each property holds for every pattern of faults unless it requires
    `Reliable(o)`, in which case it is stated for a run where no call fails.
- `Exit` (exit.dfy) holds the routines of exit.go as methods on the client. Each
  method is proved to leave the client in the state given by a specification
  function of the old state (`VolumeRemoved`, `Swept`, `ImagesNuked`,
  `CleanedUp`, `Exited`).
- `ExitProperties` (exit_properties.dfy) holds a small grammar of routine
  segments (`Routine`, `Performs`, `Follows`) and the lemmas.
  - The call sequence of each branch is stated as "the new calls follow this
    plan".
  - A plan step's shape depends only on the requests and on the replies to
    listings and existence checks. It never depends on whether a removal
    failed. Following the plan therefore means that no failure cut the
    sequence short.

## Model

| member | source | states |
|---|---|---|
| `Exit.RemoveVolume` | exit.go:13-28 | the client ends in `VolumeRemoved` of its old state: an existence check, then a removal only when the check reported the volume present |
| `ExitProperties.VolumeRemovedPerforms` | exit.go:18-27 | the new calls are one `VolumeExists(id)` and, exactly when it reported the volume present (even alongside an error), one `RemoveVolume(id)`, and nothing else |
| `ExitProperties.VolumeRemovedEffect` | exit.go:18-27 | under any faults no container or image changes and no volume but `id` can go; with no faults `id` is gone afterwards |
| `Exit.NukeContainers` | exit.go:38-44 | the removal loop leaves the client in `ContainersNuked` of its old state for the listed ids |
| `Exit.ContainersNuked` | exit.go:38-44 | exactly one `NukeContainer` call per listed id, in list order, whatever each call returns |
| `ExitProperties.NukedOnlyNamed` | exit.go:38-44 | under any faults the loop only takes containers away, only ones whose id was listed, and never touches volumes or images |
| `ExitProperties.NukedReliably` | exit.go:38-44 | with no faults, what remains is exactly the old containers whose id was not listed |
| `Exit.RemoveJobContainers` | exit.go:31-45 | lists by the invocation-id label, resets the list to empty on a listing error, then nukes each listed container (`Swept` with reset) |
| `Exit.RemoveDataContainers` | exit.go:48-61 | lists by the type label with the data-container value, keeps whatever a failed listing returned, then nukes each (`Swept` without reset) |
| `Exit.RemoveStepContainers` | exit.go:64-77 | lists by the type label with the step-container value, keeps whatever a failed listing returned, then nukes each (`Swept` without reset) |
| `Exit.RemoveInputContainers` | exit.go:80-94 | lists by the type label with the input-container value, resets the list on a listing error, then nukes each (`Swept` with reset) |
| `ExitProperties.SweptPerforms` | exit.go:33-44 | a container routine makes one listing call, then exactly one `NukeContainer` per target in order, and nothing else |
| `ExitProperties.ListingFailure` | exit.go:48-94 | after a failed listing, a resetting routine makes no further call and removes nothing; a non-resetting one nukes every id the failed listing handed back, in order |
| `ExitProperties.SweptEffect` | exit.go:31-45 | under any faults a sweep leaves volumes and images alone, only takes containers away, and when it resets on error (or the listing succeeded) takes only containers carrying its selector |
| `ExitProperties.ReliableSweep` | exit.go:31-45 | with no faults a sweep removes exactly the containers carrying its selector |
| `Exit.RemoveDataContainerImages` | exit.go:97-106 | the client ends in `ImagesNuked` of its old state for the job's data-container descriptors |
| `Exit.ImagesNuked` | exit.go:99-105 | exactly one `NukeImage(name, tag)` call per descriptor, in order, whatever each call returns |
| `ExitProperties.ImagesNukedPerforms` | exit.go:99-105 | the new calls are exactly the descriptors' image removals, in order |
| `ExitProperties.ImagesNukedEffect` | exit.go:99-105 | under any faults only the descriptors' images can go and containers and volumes are untouched; with no faults all of those images are gone |
| `Exit.Cleanup` | exit.go:109-115 | the client ends in `CleanedUp` of its old state |
| `ExitProperties.CleanupCallSequence` | exit.go:109-115 | the new calls follow input containers (reset), step containers, data containers, then the volume of the invocation, and nothing else: no image removal and no sweep by invocation id |
| `ExitProperties.CleanupKeepsImages` | exit.go:109-115 | under any faults cleanup removes no image and no volume other than the invocation's, and only takes containers away |
| `Exit.Exit` | exit.go:118-140 | the code sent back equals the code received, and the client ends in `Exited` of its old state |
| `ExitProperties.KilledCallSequence` | exit.go:122-132 | on `StatusKilled` the new calls follow: data-container images, input, step and data containers, the invocation's volume, then the sweep by invocation id |
| `ExitProperties.OtherCallSequence` | exit.go:134-136 | on any other code the new calls follow exactly two routines: the sweep by invocation id, then the invocation's volume |
| `ExitProperties.KillExtendsCleanup` | exit.go:109-132 | the kill branch equals image removal, then the whole of `cleanup`, then the sweep by invocation id |
| `ExitProperties.KilledExitReliable` | exit.go:122-132 | with no faults a kill leaves exactly the containers carrying neither the invocation label nor an input, step or data type label; removes the volume and the descriptors' images and nothing else |
| `ExitProperties.OtherExitReliable` | exit.go:134-136 | with no faults any other code leaves exactly the containers without the invocation label, removes the volume, and keeps every image |
| `ExitProperties.OtherExitScoped` | exit.go:134-136 | under any faults a non-kill exit removes only containers carrying the invocation label, no volume but the invocation's, and no image |
| `ExitProperties.ExitIdempotent` | exit.go:118-137 | with no faults a second exit with the same code leaves containers, volumes and images as the first left them |
| `ExitProperties.KilledIdempotent` | exit.go:122-132 | with no faults a second kill leaves containers, volumes and images as the first kill left them |
| `ExitProperties.OtherIdempotent` | exit.go:134-136 | with no faults a second non-kill exit leaves containers, volumes and images as the first left them |
| `ExitProperties.TypeSweepsIgnoreInvocation` | exit.go:64-77 | the step selector is not scoped by invocation: with no faults a kill removes a step container of another invocation, which a non-kill exit keeps |
| `ExitProperties.KillReapsOutputContainers` | exit.go:123-132 | with no faults a kill removes every output container of the invocation, although the comment on the kill branch says the output containers are allowed to run |

## Behaviour of the code worth noting

The model follows the code in each of these cases. Whether each is intended
cannot be told from exit.go alone.

- A failed volume-existence check does not skip the removal. The code logs the
  error and still tests the boolean that came back with it (exit.go:18-22), so
  the oracle supplies that boolean.
- A failed listing is handled in two ways. The data and step routines iterate
  whatever the client returned alongside the error (exit.go:50-54,
  exit.go:66-70). Only the input and job routines reset the list to empty
  (exit.go:36, exit.go:85). `ListingFailure` states both behaviours.
- The input, step and data selectors use the type label alone (exit.go:50,
  exit.go:66, exit.go:82), not the invocation id. A kill therefore removes
  such containers of every invocation on the host.
  `TypeSweepsIgnoreInvocation` shows the consequence.
- The comment on the kill branch (exit.go:123-126) says the output containers
  are allowed to run. The branch ends with `RemoveJobContainers`
  (exit.go:132), which removes every container carrying the invocation label,
  output containers included. `KillReapsOutputContainers` states this.

## Left out

- Logging through logcabin is dropped. It has no effect on control flow.
- The channel handshake of `Exit` is not modelled. The goroutine, the blocking
  receive and the send are replaced by a method that takes the received code
  and returns the code to send.
- The Docker client is not part of this model. It is replaced by the abstract
  `Runtime.Client`. Faults come from an oracle indexed by call position.
  - A failed call changes nothing in the model.
  - Removing a resource that is absent counts as a failure.
  - The include-stopped flag of the listing is implicit: containers have no
    running state.
  - The runtime's listing order is the order of its container sequence.
- The concrete values of the label keys, the type-label codes from
  `strconv.Itoa` and the messaging status codes are not modelled. Labels are
  datatype constructors, distinct by construction. `StatusOther(code)` stands
  for every code other than `StatusKilled`.
- The global `job` and `dckr` handles become parameters. Only the invocation id
  and the data-container descriptors of the job are kept.
- Other agents or jobs changing the runtime during a teardown are not modelled.
  The calls of one teardown run one after another against a store that nothing
  else changes.
