# Verified model of the Concourse operator

The operator reconciles custom resources (Instance, Team, Pipeline, Job, Build, Resource) with a Concourse
server. Its hard part is a protocol between an API server with optimistic concurrency, the operator's own
work queue, cache and goroutines, and Concourse. This project models that protocol as state machines whose
actions are the single external calls of a reconcile, and proves what every run keeps.

| file | models |
|---|---|
| `ApiServer.dfy` | the stored object all parts share: versions, conditional writes, generation, conditions, and the fate of a write (stored and acknowledged, stored but reply lost, not stored) |
| `BuildStatus.dfy`, `BuildProtocol.dfy`, `BuildInvariant.dfy`, `BuildTheorems.dfy` | the life of one Build under any number of interleaved reconciles, stale reads, conflicts, crashes and lost replies |
| `BuildCalls.dfy`, `BuildWakeUp.dfy` | which calls a Build reconcile makes, and when another reconcile of the Build is coming |
| `BuildConditions.dfy` | what the stored conditions of a Build tell, and that an undisturbed reconcile gets to store them |
| `BuildTarget.dfy`, `BuildRetarget.dfy` | what more holds when all walks of a Build end at one Concourse server, and exactly what happens when they do not |
| `Watchers.dfy`, `BuildManager.dfy` | the stream loop, the sentinel map, the bounded event channel, and their composition with all Builds and all Concourse servers |
| `ClientCache.dfy`, `CacheThreads.dfy` | the client cache as a class, and any interleaving of its non-atomic `GetOrBuild` with evictions and secret rotations |
| `PipelineStatus.dfy`, `PipelineProtocol.dfy`, `PipelineRuns.dfy` | config, pause and exposure sync and the deletion pass; skipping by hash as a refinement of applying always; convergence |
| `PipelineConditions.dfy` | when a pass applies, what its stored status tells, and what a deletion pass leaves |
| `JobTrigger.dfy`, `ResourceCheck.dfy`, `Finalizers.dfy` | the Job reconcile with its trigger accounting, the Resource reconcile with its rate limit, finalizer safety |
| `JobConditions.dfy`, `ResourceConditions.dfy` | what the stored status of a Job and of a Resource tells, whatever the replies were |
| `Resolver.dfy`, `TeamAuth.dfy` | the resolver chain, and the fold that builds a team's auth |

`dafny verify dfyconfig.toml` checks everything.

A resourceVersion is an index into the sequence of all versions ever stored; a write is stored only when the
version it was read at is still the last one, and a write that changes nothing makes no new version. A run is a
sequence of states with an enabled action between each two. Each part has one inductive invariant (`Inv`, `StepInv`
or one lemma per action, `RunInv`), and the main results are read off it. The action in which a reconcile asks the
resolver carries the cluster and the cache that the walk finds; its answer is yes exactly when the chain that
`Resolver` defines is there and a client can be had, which is what the resolver methods are proved to return. The calls
of a Build reconcile go to the server of the client that its own walk has ended at; a build is known by its server and
its ID.

## Assumptions

- Only the operator writes status; a new object has an empty status.
- On each Concourse server build IDs are positive and never reused, and a build's phase only moves pending, started,
  terminal. A URL stands for one server. That all walks of a Build end at one server is assumed only where a lemma
  requires `OneSite`.
- Build wake-ups: a reconcile started after a watch event was delivered reads a version no older than that event's.
  A watch event of a spec edit may come late, but it comes.
- Cache: equal namespace, name and resourceVersion mean equal spec; names hold no '/' or '@' (section 2.1 of RFC 1123).
- Pipelines: the resolved target is fixed, nobody else edits the pipeline on Concourse, the hash is injective and
  never empty, a Concourse call that errs has no effect, reconciles of one Pipeline run one after another, and (only
  where a lemma requires `Faithful`) no status write is lost after a successful apply.
- Finalizers: reconciles of one object run one after another, reads never go back, and nobody else removes the
  operator's finalizer.
- Resource checks: the clock is monotone, and stored times lose their fraction (section 5.6 of RFC 3339).

## Where the code does less than its documentation

Each of these comes with its exact condition and with a run that shows it.

- Lost wake-up. A Build whose Job is missing at the moment of a reconcile is left with no timer, request or retry
  (internal/controller/build_controller.go:84-86), and the Job's return wakes nothing. A live Build has nothing pending
  if and only if its last alert reconcile met a missing Job and nothing has woken it since (`NoLostWakeUp`, for one
  Build and for the manager with its watchers; `WakesIff` lists what wakes). Run: `MissingJobStrandsABuild`.
- Wrong skip. Config A, then B with its status write lost, then A again leaves B on the server and reports Ready
  (`LostWriteSkipsWrongly`). After such a loss the next pass repairs the server if and only if the wanted config is not
  the recorded one, or no ID is recorded (`LostWriteHealsIff`); over every run, a stored status goes with the right config
  on the server if and only if the version before it had no ID, or another hash than the wanted config, or the server's
  hash (`LandedIsRightIff`). Run: `LostWriteSkipsInARun`.
- Retargeting. Every reference along the chain and the Instance URL may be edited; after that a reconcile uses the
  stored ID on another server (internal/controller/build_controller.go:121-143). The stored phase moves back if and only
  if a status write lands whose reconcile was told, by the server its walk ended at, of a build under that ID which is
  behind the stored phase (`MovesBackIff`); an abort hits a build that was not created for this Build if and only if the
  walk ended at another server than the stored build's and the ID there is none that this Build has lost
  (`AbortIsForeignIff`). Run: `RetargetedBuild`. With one server neither happens (`StatusNeverMovesBack`, `AbortsAreOwn`).
- A Pipeline that is being deleted keeps its recorded hash after the delete call has taken effect; the hash matches the
  server if and only if no delete call has (`RecordedHashMatchesServer`). Run: `DeletedKeepsItsHash`.
- StartTime is copied from the create reply alone, so the Duration of api/v1alpha1/build_types.go:80-82 appears exactly
  when that reply already carried a start time and the end is known (`DurationNeedsEarlyStart`). Run:
  `FinishedWithoutDuration`.
- A failed creation of the Build object still consumes the trigger that api/v1alpha1/job_types.go:37-38 promises for each
  spec change (`FailedCreateConsumesTrigger`). A consumed trigger has no Build if and only if every attempt for its
  generation failed, also those whose status write was lost (`ConsumedWithoutBuildIff`). Run: `ConsumedWithoutBuild`.
- Evicting a deleted Instance (docs/architecture/client-cache.md:37) does not last: an Instance that is out of the cache can
  come back without a new call for it if and only if a call for it is still on its way (`EvictionIsUndoneIff`). Run:
  `EvictedComesBack`.
- A rotated secret is not noticed while the Instance keeps its resourceVersion, against
  docs/architecture/client-cache.md:15. A hit is what building would give now if and only if the secrets the spec refers to
  are still those it was built with (`HitIsFreshIff`). Runs: `RotationIsNotNoticed`, `OldPasswordIsUsed`.
- Checks keep a distance of more than the interval minus one second, not of the interval: LastChecked is stored in
  whole seconds, so a check is early by up to the fraction that the last stamp has lost
  (`TruncationCostsLessThanASecond`, `CheckRateBound`). Run: `EarlyCheck`.
- Finalizer safety needs reads that never go back: reading a version of an object that is gone leads to an apply if and
  only if that version carries the finalizer and no deletion mark (`BackwardReadLeaksIff`). Run: `BackwardReadLeaks`;
  `ForwardReadIsSafe` is the other side.

## Model

| member | source | states |
|---|---|---|
| `BuildStatuses.BuildObject.constructor` | internal/controller/build_controller.go:63-66 | the object a reconcile holds starts as the version it read |
| `BuildStatuses.BuildObject.ApplyCreated` | internal/controller/build_controller.go:112-118 | after the create reply: ID, name, URL, and start time only if the reply has one; all other fields keep their values |
| `BuildStatuses.BuildObject.ApplyRefresh` | internal/controller/build_controller.go:134-141 | after the refresh reply: phase, and end time and creator only if reported; ID, name, URL and start are kept |
| `BuildStatuses.BuildObject.Conclude` | internal/controller/build_controller.go:145-159 | duration, the Complete and Ready conditions and the observed generation for every combination of phase, ID and times |
| `BuildStatuses.TerminalIsFinal` | internal/controller/build_controller.go:184-191 | a phase is terminal if and only if no other phase can follow it, and if and only if it is succeeded, failed, errored or aborted |
| `BuildStatuses.BuildObject.Track` | internal/controller/build_controller.go:102-159 | the in-place updates of one whole reconcile equal the status function that the protocol writes |
| `BuildInvariant.DraftIsGood` | internal/controller/build_controller.go:112-159 | from a coherent, truthful, non-terminal status, the draft is coherent and truthful again whatever the replies were, and whichever server gave them |
| `BuildInvariant.StepCreate` | internal/controller/build_controller.go:102-119 | an acknowledged, unacknowledged or refused create on the server of the walk keeps the invariant: the new build is held by this reconcile or orphaned, never both |
| `BuildInvariant.StepAbort` | internal/controller/build_controller.go:121-126 | an abort call for the ID on the server of the walk keeps the invariant: a version asked for it |
| `BuildInvariant.StepRefresh` | internal/controller/build_controller.go:128-159 | a failed, empty or good refresh from the server of the walk keeps the invariant: the draft is coherent, keeps the ID and replaces no terminal status |
| `BuildInvariant.StepReport` | internal/controller/build_controller.go:89-94 | a not-ready status write of any fate keeps the invariant: it changes the Ready condition only |
| `BuildInvariant.StepWrite` | internal/controller/build_controller.go:161-167 | a status write of any fate keeps the invariant: the held build becomes the stored one or an orphan |
| `BuildInvariant.StepInv` | internal/controller/build_controller.go:60-182 | each of the twenty actions keeps the invariant that ties stored versions, running reconciles, Concourse, orphans and aborts together |
| `BuildInvariant.RunInv` | internal/controller/build_controller.go:60-182 | the invariant holds in every reachable state |
| `BuildInvariant.RunAdvances` | internal/controller/build_controller.go:161-163 | along a run versions are only appended, every Concourse server only moves forward, replies and orphans only grow |
| `BuildTheorems.IdAndEndAreFinal` | internal/controller/build_controller.go:72-75 | between any two states of any run a stored ID never changes, nor the server it belongs to, and a status with one of the four final phases never changes in any field, whatever servers were asked |
| `BuildTarget.StatusNeverMovesBack` | internal/controller/build_controller.go:128-143 | in a run whose walks all end at one server, the stored phase does not move back between any two states |
| `BuildTarget.TerminalIsConcoursePhase` | internal/controller/build_controller.go:128-143 | in such a run, a stored terminal phase is the phase that server holds for the stored build, then and in every later state of any continuation |
| `BuildTarget.StoredIsTruthful` | internal/controller/build_controller.go:129-142 | in such a run, phase, end and creator of every version are those of one report of that server about the stored build, which has not moved back since |
| `BuildTarget.AbortsAreOwn` | internal/controller/build_controller.go:121-126 | in such a run, only builds created for this Build are aborted |
| `BuildRetarget.MovesBackIff` | internal/controller/build_controller.go:128-163 | over every run: the stored phase moves back in a step if and only if the step stores a status whose refresh was told, by the server of its walk, of a build under the ID that is behind the stored phase |
| `BuildRetarget.AbortIsForeignIff` | internal/controller/build_controller.go:121-126 | over every run: an abort is for a build not created for this Build if and only if the walk ended at another server than the stored build's and the ID there is none this Build has lost or is about to store |
| `BuildRetarget.RetargetedBuild` | internal/controller/build_controller.go:121-143 | a run from the start with two servers, in which the stored phase goes from started to pending and a stranger's build is aborted |
| `BuildTheorems.StoredIsCoherentAndTruthful` | internal/controller/build_controller.go:129-159 | in every version of every reachable state: Complete is True exactly for succeeded, failed, errored and aborted, with that name as reason, and False, InProgress for any other phase of a build; Pending is never written; Ready is True, Tracked, or False with one of three reasons; duration is present exactly with both times and is their difference; name, URL and start come from the create reply of the stored build, phase, end and creator from one report about a build with that ID |
| `BuildConditions.TrackedIsStored` | internal/controller/build_controller.go:145-163 | in every run, a status write that is stored leaves Ready True, Tracked, whatever the phase, Complete False, InProgress exactly for a phase that is not final, and the generation read as observed |
| `BuildConditions.ReportTellsWhy` | internal/controller/build_controller.go:77-111 | in every run, a stored report leaves Ready False, its reason names what the same reconcile has met before (no Job reference, a broken chain, a create call without a reply), and nothing else changes |
| `BuildConditions.TroubleIsStored` | internal/controller/build_controller.go:77-111 | every run goes on from such a meeting with the report being stored; the reconcile ends, with a timer unless the Job reference is missing |
| `BuildConditions.UndisturbedCreates` | internal/controller/build_controller.go:60-163 | every run goes on with an undisturbed reconcile of a queued Build without an ID: the build it creates is stored with its ID, name, URL, phase, times, creator and server, Ready and Complete as they must be; an unknown time or creator leaves what was stored |
| `BuildConditions.UndisturbedRefreshes` | internal/controller/build_controller.go:60-163 | and of a Build with an ID: phase, end and creator are those of the server of its walk if it finds the build, each kept where the server knows none or does not find it, and an abort that was asked for is called |
| `BuildTheorems.DurationNeedsEarlyStart` | internal/controller/build_controller.go:115-118 | a duration is stored if and only if the end is known and the create reply for the stored build carried a start time |
| `BuildTheorems.FinishedWithoutDuration` | internal/controller/build_controller.go:112-148 | a run from the start that ends with a finished Build without a duration, although Concourse knows both times |
| `BuildTheorems.BuildConservation` | internal/controller/build_controller.go:102-119 | builds created on all servers = stored (0 or 1) + orphaned by a lost write, lost reply or crash + held by running reconciles, in every reachable state |
| `BuildTheorems.OrphansAreNeverStored` | internal/controller/build_controller.go:161-163 | an orphaned build is named by no stored version, then or later |
| `BuildTheorems.AbortsAreRequested` | internal/controller/build_controller.go:121-126 | builds are aborted only if some version asked for it; a reconcile that read such a version has aborted the ID it writes, on the server of its walk |
| `BuildCalls.NoCallWithoutChain` | internal/controller/build_controller.go:83-95 | in every run, before each create, abort, refresh and watcher start the same reconcile found its Job and then walked a cluster in which the Job's Pipeline, Team and Instance exist in the Build's namespace, each with a Ready condition that is True, and a client could be had |
| `BuildWakeUp.StepKeepsAwake` | internal/controller/build_controller.go:83-86 | a step that leaves a live Build with nothing pending is the last alert reconcile meeting a missing Job |
| `BuildWakeUp.MissingJobLosesWakeUp` | internal/controller/build_controller.go:84-86 | the converse: that step always leaves nothing pending |
| `BuildWakeUp.WakesIff` | internal/controller/build_controller.go:60-182 | a Build with nothing pending gets something pending by exactly these actions: a request or watch event, an edit, or the end of a stale reconcile by error, requeue or watcher |
| `BuildWakeUp.NoLostWakeUp` | internal/controller/build_controller.go:84-95 | in every state of every run, a live Build has no timer, request, retry, undelivered edit event or alert reconcile if and only if its last alert reconcile met a missing Job earlier and nothing has woken it since |
| `BuildWakeUp.MissingJobStrandsABuild` | internal/controller/build_controller.go:84-86 | a run from the start that ends with a live Build, its ID stored, and nothing pending: no watch event is undelivered and the event of its watcher is consumed |
| `Watchers.StreamWatcher.Enqueue` | internal/controller/build_controller.go:198-205 | sends one event if the channel is set and does nothing otherwise |
| `Watchers.StreamWatcher.WatchBuildEvents` | internal/controller/build_controller.go:196-238 | for every event stream: stops at the first status event of one of the four final phases or at the stream error, reads nothing past it, and then sends exactly one event |
| `Watchers.StreamWatcher.Run` | internal/controller/build_controller.go:173-177 | the sentinel is released once, after that send |
| `Watchers.StepInv` | internal/controller/build_controller.go:169-179 | start, send, receive and release keep: a key is in the map exactly while one goroutine for it runs, and watchers started = unsent + in the channel + consumed |
| `BuildManager.PartIsStep` | internal/controller/build_controller.go:241-247 | whatever one Build, a watcher or a server does, every Build can take its part in it, so all see the same Concourse servers |
| `BuildManager.StepInv` | internal/controller/build_controller.go:169-181 | each action of the manager keeps all Builds' invariants, the shared servers, disjoint created builds, and watchers that match the sentinels and the stored IDs |
| `BuildManager.WatchersAreExclusive` | internal/controller/build_controller.go:169-179 | in every reachable state of the manager: never two watchers of one key, sentinels and goroutines match both ways, at most 64 events in the channel, exact accounting, and each watcher was started with the ID its Build has stored |
| `BuildManager.WatchersMoveOn` | internal/controller/build_controller.go:169-242 | in every reachable state no watcher is stuck: it can send or release its sentinel, unless exactly 64 events wait and the controller can take one |
| `BuildManager.BuildsAreNotShared` | internal/controller/build_controller.go:103-112 | two Builds never store the same build; IDs count per server, so the same number on two servers is two builds |
| `BuildManager.NoLostWakeUp` | internal/controller/build_controller.go:161-181 | in every reachable state of the manager, a live Build has nothing pending, counting also its unsent watchers and their events in the channel, whether the sentinel is released or not, if and only if its last alert reconcile met a missing Job when no such event was pending and nothing has woken it since |
| `ClientCache.PrefixIsExact` | internal/concourse/client_cache.go:60-62 | a key starts with an Instance's prefix if and only if it is a key of that Instance |
| `ClientCache.KeyIsInjective` | internal/concourse/client_cache.go:43-45 | equal keys mean equal namespace, name and resourceVersion |
| `ClientCache.SlashCollides` | internal/concourse/client_cache.go:43-45 | without the name syntax two Instances can share a key |
| `ClientCache.Cache.constructor` | internal/concourse/client_cache.go:38-40 | a new cache is empty |
| `ClientCache.Cache.Evict` | internal/concourse/client_cache.go:70-79 | deleting while iterating, in any order, removes all keys with the prefix and no other |
| `ClientCache.Cache.Set` | internal/concourse/client_cache.go:57-67 | evicts, then stores the one new entry |
| `ClientCache.Cache.GetOrBuild` | internal/concourse/client_cache.go:83-94 | hit, failed build and stored build, with the store after each |
| `ClientCache.OthersUntouched` | internal/concourse/client_cache.go:57-79 | Set and Evict of one Instance leave every other Instance's entries as they were |
| `ClientCache.OwnEntries` | internal/concourse/client_cache.go:57-79 | Evict leaves the Instance no entry, Set exactly the stored version |
| `ClientCache.SetKeepsOneEntry` | internal/concourse/client_cache.go:55-67 | at most one entry per namespace and name is kept by Set and Evict |
| `ClientCache.FreshIffSameSecrets` | internal/concourse/client_cache.go:87-91 | two builds for one spec give the same client if and only if the secrets the spec refers to are the same |
| `CacheThreads.RunInv` | internal/concourse/client_cache.go:43-94 | over every interleaving of threads, evictions and rotations, entries and results belong to the Instance they are under |
| `CacheThreads.HitIsOwn` | internal/concourse/client_cache.go:48-53 | a hit is a client built for exactly the spec of the Instance asked for |
| `CacheThreads.CacheRefinesBuilding` | internal/concourse/client_cache.go:83-94 | every reply, a client or a failure, is what building from the caller's own spec gave with the secrets of some time; without rotations it is what building gives now |
| `CacheThreads.AloneIsGetOrBuild` | internal/concourse/client_cache.go:83-94 | every run goes on with a call that nothing interleaves with, and it returns: the stored client on a hit, else what building gives now, stored unless building failed |
| `CacheThreads.StoreShape` | internal/concourse/client_cache.go:57-79 | every reachable store holds at most one entry per namespace and name, and nothing but such entries |
| `CacheThreads.EvictionIsUndoneIff` | internal/controller/instance_controller.go:57-66 | in every reachable state, an Instance that is out of the cache can come back without a new call for it if and only if a call for it is on its way |
| `CacheThreads.EvictedComesBack` | internal/concourse/client_cache.go:83-94 | a run from the start with an eviction after which the Instance is in the cache again, with no call left |
| `CacheThreads.HitIsFreshIff` | internal/concourse/client_cache.go:84-86 | in every run, a hit was built for the caller's spec with the secrets of some time, and is what building gives now if and only if the secrets the spec refers to are the same as then |
| `CacheThreads.RotationIsNotNoticed` | internal/concourse/client_cache.go:43-53 | for every Instance and every rotation, a run in which a call after the rotation gets the client built before it |
| `CacheThreads.OldPasswordIsUsed` | internal/concourse/client_cache.go:84-86 | a run in which that client differs from what building gives now |
| `PipelineStatuses.ConfigComesFromItsSource` | internal/controller/pipeline_controller.go:181-199 | inline config wins and ignores config maps; otherwise the config is exactly the referenced key's value, and a missing reference, map or key, or a map that cannot be read, is an error |
| `PipelineStatuses.PipelineObject.constructor` | internal/controller/pipeline_controller.go:57-60 | the object a reconcile holds starts as the version it read |
| `PipelineStatuses.PipelineObject.RecordApplied` | internal/controller/pipeline_controller.go:119-127 | conditions and hash after a successful apply |
| `PipelineStatuses.PipelineObject.SyncFlags` | internal/controller/pipeline_controller.go:130-159 | server and status get each flag exactly when its call succeeds |
| `PipelineStatuses.PipelineObject.Fetch` | internal/controller/pipeline_controller.go:161-173 | ID, group count and update time of the server, then Ready and the observed generation |
| `PipelineStatuses.PipelineObject.Sync` | internal/controller/pipeline_controller.go:105-173 | the in-place reconcile equals one pass of the specification on both status and server, for all replies |
| `PipelineStatuses.AppliesIff` | internal/controller/pipeline_controller.go:105-118 | for every status, server and config: a pass makes the apply call if and only if the recorded ID is 0 or the recorded hash is not that of the wanted config; a call that succeeds leaves the wanted config, one that fails or is left out leaves the config alone |
| `PipelineStatuses.PassTells` | internal/controller/pipeline_controller.go:111-173 | for all replies: Ready, ConfigSynced and ConfigWarning with status and reason, the hash, the flags and the observed generation after a pass, and which of them stay as they were |
| `PipelineStatuses.PassFetches` | internal/controller/pipeline_controller.go:161-170 | ID, group count and update time are those of the server if the fetch finds it, and stay as they were if not |
| `PipelineStatuses.PassMoves` | internal/controller/pipeline_controller.go:130-159 | each flag of the server is set exactly by its call; a new pipeline starts paused and hidden under the ID Concourse gives it |
| `PipelineStatuses.PipelineConverges` | internal/controller/pipeline_controller.go:82-178 | one fault-free pass makes config, pause and exposure what the spec says and records it; a second applies nothing and changes neither status nor server |
| `PipelineStatuses.LostWriteHealsIff` | internal/controller/pipeline_controller.go:108-110 | with a recorded hash that is no longer the server's, a pass repairs the config if and only if the wanted config is not the recorded one or no ID is recorded |
| `PipelineStatuses.LostWriteSkipsWrongly` | internal/controller/pipeline_controller.go:108-128 | A, B with its status lost, A: reported Ready with B on the server |
| `PipelineRuns.LostWriteSkipsInARun` | internal/controller/pipeline_controller.go:105-177 | for every good hash, a run from the start that ends Ready and observed with config A in the spec and config B on the server |
| `PipelineProtocol.RunInv` | internal/controller/pipeline_controller.go:57-178 | the invariant between status, running reconcile or deletion pass, server and always-applying reference holds in every state of a faithful run |
| `PipelineProtocol.RecordedHashMatchesServer` | internal/controller/pipeline_controller.go:62-128 | in a faithful run, unless an apply awaits its status write, a non-empty stored hash is the hash of the config on the server if and only if no delete call has taken effect; so it is for every object not marked deleted |
| `PipelineConditions.LandedIsRightIff` | internal/controller/pipeline_controller.go:108-177 | over every run, faithful or not: when a pass stores its status, the server has the config it loaded if and only if the version it follows has no ID, or another hash than that config, or the hash of the server's config |
| `PipelineConditions.AppliesIffInRuns` | internal/controller/pipeline_controller.go:105-118 | in every run, a reconcile makes the apply call if and only if the version it read has no ID or another hash; success leaves the wanted config, an error leaves the server alone and is reported, and without the call the reconcile goes on |
| `PipelineConditions.StoredPassTells` | internal/controller/pipeline_controller.go:119-177 | in every run, a pass that stores its status leaves Ready True, the generation it read, the hash of the config it loaded, the flags its calls have set, and the conditions of an apply call exactly if it wanted one |
| `PipelineConditions.ReportTellsWhy` | internal/controller/pipeline_controller.go:82-118 | in every run, a stored report leaves Ready False, its reason names what the same reconcile has met (a broken chain, a config that cannot be loaded, a failed apply call), only the last touches ConfigSynced, and nothing else changes |
| `PipelineConditions.TroubleIsStored` | internal/controller/pipeline_controller.go:82-118 | every run goes on from such a meeting with the report being stored and the server left alone |
| `PipelineConditions.DeleteGoesOn` | internal/controller/pipeline_controller.go:62-70 | in every run, whatever became of the delete call, the reconcile goes on to remove the finalizer; the server is emptied exactly by the call that takes effect |
| `PipelineConditions.DeletionReleases` | internal/controller/pipeline_controller.go:62-73 | every run in which the object is marked deleted and carries the finalizer goes on with an undisturbed deletion pass, whether the chain is broken, the call fails or it succeeds: unless the finalizer write is rejected the finalizer is gone, the rest is kept and the object can leave; the server is empty if and only if it was before or the call took effect |
| `PipelineConditions.FinalizerComesFirst` | internal/controller/pipeline_controller.go:75-80 | every run goes on from a living object without the finalizer with a reconcile that stores it before it touches the server, and ends if that write gives an error |
| `PipelineRuns.DeletedKeepsItsHash` | internal/controller/pipeline_controller.go:62-73 | a faithful run from the start that ends with a recorded hash and nothing on the server |
| `PipelineProtocol.SkippingRefinesApplying` | internal/controller/pipeline_controller.go:105-177 | whenever a pass stores its status, the server has the same config, flags and ID as under a reconciler that applies every time, and it is the config that pass loaded |
| `PipelineProtocol.NoCallWithoutChain` | internal/controller/pipeline_controller.go:82-89 | in every run, each apply, pause, expose and fetch comes from a reconcile that walked a ready chain of the Pipeline it read, Team and Instance each with a Ready condition that is True, and so does each delete call |
| `PipelineRuns.UndisturbedIsPass` | internal/controller/pipeline_controller.go:57-178 | an undisturbed reconcile in a run does to server and stored object what one pass of the specification does |
| `PipelineRuns.ConvergesInRuns` | internal/controller/pipeline_controller.go:82-178 | in every faithful run, after an undisturbed fault-free reconcile the server is what the stored spec says, and a second one changes neither the server nor the stored object: no new version |
| `Finalizers.StepInv` | internal/controller/pipeline_controller.go:62-80 | reads, finalizer writes of any fate, applies, deletes, crashes and foreign edits keep the finalizer invariant |
| `Finalizers.AppliedOnlyUnderFinalizer` | internal/controller/team_controller.go:71-95 | an apply happens only while the stored, living object carries the finalizer |
| `Finalizers.NoAppliedObjectLeavesUnfinalized` | internal/controller/team_controller.go:58-69 | an object that was applied and is gone had, after its last apply, a pass that attempted deletion or failed to resolve |
| `Finalizers.ApplyFollowsResolve` | internal/controller/team_controller.go:78-95 | in every run, whatever the order of reads, an apply comes from a reconcile whose resolver has succeeded and which has not returned since |
| `Finalizers.FinalizerWritesLand` | internal/controller/team_controller.go:58-76 | a finalizer write that is not rejected is stored even if the reconcile sees an error, and only an acknowledged one goes on to the resolver; the removal drops the object unless another finalizer holds it |
| `Finalizers.DeletionReleases` | internal/controller/team_controller.go:58-69 | every run goes on with an undisturbed deletion pass that releases the object, whatever the deletion attempt gives |
| `Finalizers.BackwardReadLeaksIff` | internal/controller/pipeline_controller.go:62-110 | reading a version of a gone object leads to an apply if and only if that version carries the finalizer and no deletion mark |
| `Finalizers.BackwardReadLeaks` | internal/controller/pipeline_controller.go:75-110 | a run with reads that go back, from the start to a gone object that is applied and not finalized |
| `Finalizers.ForwardReadIsSafe` | internal/controller/pipeline_controller.go:62-73 | reading forward, every such version of a gone object is marked deleted |
| `JobTrigger.StepInv` | internal/controller/job_controller.go:57-143 | each action of any number of reconciles keeps the trigger accounting |
| `JobTrigger.TriggerAccounting` | internal/controller/job_controller.go:92-112 | Builds created + failed creates = attempts = triggered generations + lost status writes + in flight; the triggered generations are exactly the observed ones that asked for a Build, once each and in order |
| `JobTrigger.TriggerIsDeferredNotDropped` | internal/controller/job_controller.go:61-68 | a due trigger stays due over every step but an edit or the landing of an attempt for it |
| `JobTrigger.NoCallWithoutChain` | internal/controller/job_controller.go:61-68 | in every run, each pause, unpause and fetch of the last build comes from a reconcile that walked a ready chain of the Job it read, Pipeline, Team and Instance each with a Ready condition that is True |
| `JobConditions.DeletedIsLeftAlone` | internal/controller/job_controller.go:57-59 | in every run, no reconcile gets past reading a version that is marked deleted |
| `JobConditions.StoredJobTells` | internal/controller/job_controller.go:78-139 | in every run, a status write that is stored leaves Ready True, the generation read, the pause flag exactly as a successful call has set it, and LastBuildSucceeded and the last build as the job info says, with status and reason for each of its four forms |
| `JobConditions.ReportTellsWhy` | internal/controller/job_controller.go:61-68 | in every run, a stored report leaves Ready False, PipelineNotReady, comes from a broken chain that the same reconcile has walked, and changes nothing else |
| `JobConditions.UndisturbedIsStored` | internal/controller/job_controller.go:57-143 | every run goes on with an undisturbed reconcile to a stored status, whether pause, create and fetch succeed or not; a Build is created if and only if one is asked for, the generation was not observed and the create call succeeds |
| `JobConditions.TroubleIsStored` | internal/controller/job_controller.go:61-68 | every run goes on with a reconcile that meets a broken chain, stores its report and creates nothing |
| `JobTrigger.FailedCreateConsumesTrigger` | internal/controller/job_controller.go:105-112 | after a failed create whose status lands, the trigger is no longer due, and these steps have added no Build |
| `JobTrigger.ConsumedWithoutBuildIff` | internal/controller/job_controller.go:92-112 | in every run, a triggered generation was attempted, and it has no Build if and only if every attempt for it failed |
| `JobTrigger.ConsumedWithoutBuild` | internal/controller/job_controller.go:105-112 | a run from the start that ends with a consumed trigger and no Build |
| `ResourceCheck.TruncationCostsLessThanASecond` | internal/controller/resource_controller.go:126-134 | by the stored time a check is due if and only if it comes no earlier than the interval, less the fraction that the stamp has lost, after the stamp; so more than the interval minus one second after it, and no better bound holds |
| `ResourceCheck.StepInv` | internal/controller/resource_controller.go:89-117 | every step keeps consecutive landed checks spaced and LastChecked the truncated stamp of the last one |
| `ResourceCheck.NoCallWithoutChain` | internal/controller/resource_controller.go:61-76 | in every run, each check and fetch of the latest version comes from a reconcile that walked a ready chain of the Resource it read, Pipeline, Team and Instance each with a Ready condition that is True |
| `ResourceConditions.DeletedIsLeftAlone` | internal/controller/resource_controller.go:57-59 | in every run, no reconcile gets past reading a version that is marked deleted |
| `ResourceConditions.ChecksIff` | internal/controller/resource_controller.go:90-105 | in every run, a reconcile goes on to the check call if and only if an interval is set and no check is recorded or the interval has passed since |
| `ResourceConditions.StoredResourceTells` | internal/controller/resource_controller.go:95-115 | in every run, a status write that is stored leaves Ready True, the generation read, CheckHealthy as the check says (or Unknown, CheckPending before the first one), LastChecked moved by a successful check only, and the latest version it was given, if any |
| `ResourceConditions.ReportTellsWhy` | internal/controller/resource_controller.go:65-76 | in every run, a stored report leaves Ready False, and its reason names the link that the same reconcile found broken: the Pipeline, or one behind it |
| `ResourceConditions.UndisturbedIsStored` | internal/controller/resource_controller.go:50-124 | every run goes on with an undisturbed reconcile to a stored status, whether check and fetch succeed or not; the check is made if and only if it is due |
| `ResourceConditions.TroubleIsStored` | internal/controller/resource_controller.go:61-76 | every run goes on with a reconcile that meets a broken chain: a missing Pipeline ends it without a trace, anything else is reported |
| `ResourceCheck.EarlyCheck` | internal/controller/resource_controller.go:126-134 | a run with an interval of two seconds and two landed checks little more than one second apart |
| `ResourceCheck.GapsAddUp` | internal/controller/resource_controller.go:126-134 | gaps of a spaced log add up over any stretch |
| `ResourceCheck.CheckRateBound` | internal/controller/resource_controller.go:89-117 | in every run, landed checks j to k with interval d took more than (k - j)(d - 1s), by call time and by stamp |
| `Resolver.GetOrBuildHonest` | internal/controller/resolver.go:42-46 | the client is exactly the cached or the newly built one; it was built from the Instance's own spec and namespace's secrets; a failed build leaves the cache alone; and the cache stays honest |
| `Resolver.WalkEndsAtChain` | internal/controller/resolver.go:33-89 | a walk ends with a client exactly when the chain is there, each link with a Ready condition that is True, and a client can be had; it is the client of the one Instance of that chain |
| `Resolver.FailsIffBroken` | internal/controller/resolver.go:33-89 | the resolver fails if and only if a link is broken: missing, its Ready condition absent, False or Unknown, or no client to be had |
| `Resolver.ResolveInstanceForTeam` | internal/controller/resolver.go:33-47 | succeeds if and only if the Instance exists in the namespace, its Ready condition is True and a client can be had; returns exactly that Instance's client, cached or new; each error comes exactly from its broken link and leaves the cache alone |
| `Resolver.ResolveClientForPipeline` | internal/controller/resolver.go:50-68 | the same for Team and Instance, with the team name, or the object name if it is empty |
| `Resolver.ResolveClientForJob` | internal/controller/resolver.go:71-89 | succeeds exactly on the chain Pipeline, Team, Instance in the Job's namespace, each with a Ready condition that is True; returns exactly that Instance's client and the names, defaulted to the object names; each error comes exactly from the first broken link |
| `Resolver.ResourceGate` | internal/controller/resource_controller.go:61-76 | the Resource reconcile gets a client on exactly the chain of a Job with the same pipelineRef, and the same errors |
| `TeamAuths.BuildTeamAuth` | internal/controller/team_controller.go:142-155 | nothing for no roles; otherwise keys are precisely the roles present, and users and groups of each are the in-order concatenation over its bindings |
| `TeamAuths.ConcatOf` | internal/controller/team_controller.go:147-153 | the lists of a concatenated role list are the concatenated lists |
| `TeamAuths.ExtendedIsAuth` | internal/controller/team_controller.go:148-152 | one iteration extends the exact auth of a prefix to that of one binding more |
| `TeamAuths.AuthIsUnique` | internal/controller/team_controller.go:142-155 | a list of bindings has only one exact auth |
| `TeamAuths.AuthIsCompositional` | internal/controller/team_controller.go:142-155 | the auth of two lists joined is the role-by-role merge of their auths |

## Left out

- Condition messages and transition times: conditions are a map from type to status and reason.
- HTTP, OAuth2, TLS and reading of secrets: building a client is a function of the spec and a snapshot of secrets, and may fail.
- SHA-256: any function from configs to strings; injective only where a lemma requires it.
- Worker and Instance reconcilers: easy properties; the Instance reconciler appears only as the caller of `Evict`.
- The NextBuildName of a Job, and the pinned version sent with a check: they decide nothing.
- Build, Job and Resource `Reconcile` as one in-place method: each external call is an atomic step on values, since other reconciles run in between; the field updates between calls of a Build and a Pipeline are in the classes.
- The reads of one walk along the chain are one step: the cluster in it is what those reads return, and an object whose read fails counts as missing.
- Two URLs of one Concourse server: a server is known by its URL.
- A name reused by a re-created Build, and a Build object restored from a backup with a status.
- Deletion of a Job or a Resource in the middle of a run; a version already marked deleted is not acted on.
- Cancelling a watcher's context: `watchBuildEvents` is only called with a background context, which never ends.
- controller-runtime, work queue and informer internals beyond stale reads, conditional writes, retry on error, timers and watch events; a failed first read of a Build is a retry like a crash.
- The slice aliasing of `append` in `buildTeamAuth`: lists are values.
