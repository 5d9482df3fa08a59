/** All Builds of one manager: their protocols run side by side, share the Concourse servers, the watcher
    goroutines and the event channel (internal/controller/build_controller.go). */
module BuildManager {
  import opened ApiServer
  import opened BuildStatuses
  import B = BuildProtocol
  import C = BuildCalls
  import I = BuildInvariant
  import U = BuildWakeUp
  import W = Watchers

  /** `server`: the builds of all Concourse servers. */
  datatype State = State(server: map<BuildRef, AtcBuild>, builds: map<W.Key, B.State>, watch: W.State)

  datatype Action =
    | NewBuild(key: W.Key, initial: B.State)
    | OfBuild(key: W.Key, step: B.Action)   // any step of one Build but the two below
    | SpawnWatcher(key: W.Key, r: nat)
    | OfServer(b: AtcBuild)                 // a build moves on, or is created by somebody else
    | OfWatcher(move: W.Action)
    | Consume                               // the controller takes an event and queues its Build

  /** The build that a step of one Build creates on the server. */
  function Created(a: B.Action): Option<AtcBuild> {
    if a.Create? && !a.outcome.Refused? then Some(a.b) else None
  }

  /** What the action is to the Build of `key`: a build created for another Build, or by others, is foreign. */
  function Part(s: State, a: Action, key: W.Key): Option<B.Action> {
    match a
    case NewBuild(_, _) => None
    case OfBuild(k, step) =>
      if k == key then Some(step) else if Created(step).Some? then Some(B.Foreign(Created(step).value)) else None
    case SpawnWatcher(k, r) => if k == key then Some(B.Spawn(r)) else None
    case OfServer(b) => Some(if b.Ref() in s.server then B.Progress(b) else B.Foreign(b))
    case OfWatcher(_) => None
    case Consume => if s.watch.channel != [] && s.watch.channel[0] == key then Some(B.Enqueue) else None
  }

  ghost predicate CanStep(b: B.State, a: B.Action) {
    b.WellFormed() && B.Enabled(b, a)
  }

  /** What the one who acts needs; that the other Builds can follow is proved (`PartIsStep`). */
  ghost predicate Enabled(s: State, a: Action) {
    match a
    case NewBuild(key, initial) => key !in s.builds && B.Init(initial) && initial.atc.server == s.server
    case OfBuild(key, step) =>
      && key in s.builds && CanStep(s.builds[key], step)
      && !step.Spawn? && !step.Progress? && !step.Foreign?
    case SpawnWatcher(key, r) => key in s.builds && CanStep(s.builds[key], B.Spawn(r))
    case OfServer(b) =>
      b.id > 0 && b.phase != Unset && (b.Ref() in s.server ==> NotAfter(s.server[b.Ref()].phase, b.phase))
    case OfWatcher(move) => (move.Post? || move.Finish?) && W.Enabled(s.watch, move)
    case Consume => W.Enabled(s.watch, W.Take)
  }

  ghost function Moved(b: B.State, part: Option<B.Action>): B.State {
    if part.Some? && CanStep(b, part.value) then B.Do(b, part.value) else b
  }

  ghost function NextBuilds(s: State, a: Action): map<W.Key, B.State> {
    map key | key in s.builds :: Moved(s.builds[key], Part(s, a, key))
  }

  function NextServer(s: State, a: Action): map<BuildRef, AtcBuild> {
    if a.OfServer? then s.server[a.b.Ref() := a.b]
    else if a.OfBuild? && Created(a.step).Some? then s.server[a.step.b.Ref() := a.step.b]
    else s.server
  }

  ghost function NextWatch(s: State, a: Action): W.State
    requires Enabled(s, a)
  {
    match a
    case SpawnWatcher(key, r) => W.Do(s.watch, W.Start(key, s.builds[key].recs[r].draft.id))
    case OfWatcher(move) => W.Do(s.watch, move)
    case Consume => W.Do(s.watch, W.Take)
    case _ => s.watch
  }

  ghost function Do(s: State, a: Action): State
    requires Enabled(s, a)
  {
    if a.NewBuild? then s.(builds := s.builds[a.key := a.initial])
    else State(NextServer(s, a), NextBuilds(s, a), NextWatch(s, a))
  }

  ghost predicate IsRun(states: seq<State>, actions: seq<Action>) {
    && |states| == |actions| + 1
    && states[0].builds == map[] && states[0].watch == W.INITIAL
    && forall i :: 0 <= i < |actions| ==> Enabled(states[i], actions[i]) && states[i + 1] == Do(states[i], actions[i])
  }

  // ----- The invariant -----

  /** A watcher streams the build that is stored in the Build of its key. */
  ghost predicate WatchesStored(builds: map<W.Key, B.State>, g: W.Goroutine) {
    && g.key in builds && |builds[g.key].history| > 0
    && g.buildID != 0 && builds[g.key].Current().status.id == g.buildID
  }

  ghost predicate AllWatchStored(builds: map<W.Key, B.State>, watch: W.State) {
    forall g <- watch.running :: WatchesStored(builds, watch.running[g])
  }

  ghost predicate BuildOk(server: map<BuildRef, AtcBuild>, b: B.State) {
    I.Inv(b) && b.atc.server == server
  }

  ghost predicate BuildsOk(server: map<BuildRef, AtcBuild>, builds: map<W.Key, B.State>) {
    forall key <- builds :: BuildOk(server, builds[key])
  }

  ghost predicate NoneShared(b: B.State, b': B.State) {
    forall ref <- b.atc.replies :: ref !in b'.atc.replies
  }

  ghost predicate Apart(builds: map<W.Key, B.State>) {
    forall k <- builds, k' <- builds :: k != k' ==> NoneShared(builds[k], builds[k'])
  }

  ghost predicate Inv(s: State) {
    BuildsOk(s.server, s.builds) && Apart(s.builds) && W.Inv(s.watch) && AllWatchStored(s.builds, s.watch)
  }

  // ----- One Build in a step of the manager -----

  /** Every Build can take its part in what any one does: its own step by definition, the others' because they
      share the server. */
  lemma PartIsStep(s: State, a: Action, key: W.Key)
    requires BuildsOk(s.server, s.builds) && Enabled(s, a) && key in s.builds && Part(s, a, key).Some?
    ensures !a.NewBuild? && key in Do(s, a).builds
    ensures B.IsStep(s.builds[key], Part(s, a, key).value, Do(s, a).builds[key])
  {
    assert BuildOk(s.server, s.builds[key]);
    PartIsEnabled(s, a, key);
  }

  /** What a server may report next about one of its builds, every Build can hear. */
  lemma ReportIsHeard(server: map<BuildRef, AtcBuild>, b: B.State, x: AtcBuild)
    requires BuildOk(server, b) && x.id > 0 && x.phase != Unset
    requires x.Ref() in server ==> NotAfter(server[x.Ref()].phase, x.phase)
    ensures CanStep(b, if x.Ref() in server then B.Progress(x) else B.Foreign(x))
  {
    I.InvIsWellFormed(b);
  }

  lemma CreatedIsFresh(server: map<BuildRef, AtcBuild>, b: B.State, step: B.Action)
    requires BuildOk(server, b) && CanStep(b, step) && Created(step).Some?
    ensures step.b.id > 0 && step.b.phase != Unset && step.b.Ref() !in server
  {}

  lemma PartIsEnabled(s: State, a: Action, key: W.Key)
    requires BuildsOk(s.server, s.builds) && Enabled(s, a) && key in s.builds && Part(s, a, key).Some?
    ensures CanStep(s.builds[key], Part(s, a, key).value)
  {
    assert BuildOk(s.server, s.builds[key]);
    if a.OfBuild? && a.key != key {
      assert BuildOk(s.server, s.builds[a.key]);
      CreatedIsFresh(s.server, s.builds[a.key], a.step);
      ReportIsHeard(s.server, s.builds[key], a.step.b);
    } else if a.OfServer? {
      ReportIsHeard(s.server, s.builds[key], a.b);
    } else if a.Consume? {
      I.InvIsWellFormed(s.builds[key]);
    }
  }

  lemma StepServer(s: B.State, a: B.Action, s': B.State)
    requires B.IsStep(s, a, s')
    ensures s'.atc.server ==
            if a.Progress? || a.Foreign? || Created(a).Some? then s.atc.server[a.b.Ref() := a.b] else s.atc.server
  {
    if a.Create? {
      assert s' == B.DoCreate(s, a.r, a.outcome, a.b);
    } else if !I.IsOutside(a) {
      OtherStepServer(s, a, s');
    }
  }

  lemma OtherStepServer(s: B.State, a: B.Action, s': B.State)
    requires B.IsStep(s, a, s') && !I.IsOutside(a) && !a.Create?
    ensures s'.atc.server == s.atc.server
  {
    if C.Ends(a) { EndServer(s, a, s'); }
  }

  lemma EndServer(s: B.State, a: B.Action, s': B.State)
    requires B.IsStep(s, a, s') && C.Ends(a)
    ensures s'.atc.server == s.atc.server
  {}

  function RefsOf(b: Option<AtcBuild>): set<BuildRef> {
    if b.Some? then {b.value.Ref()} else {}
  }

  lemma StepReplies(s: B.State, a: B.Action, s': B.State)
    requires I.AtcOk(s.atc) && B.IsStep(s, a, s')
    ensures s.history <= s'.history && s'.atc.replies.Keys <= s.atc.replies.Keys + RefsOf(Created(a))
  {
    if I.IsOutside(a) { I.OutsideAdvances(s, a, s'); } else { I.ReconcileStepOf(s, a, s'); }
    if a.Create? { assert s' == B.DoCreate(s, a.r, a.outcome, a.b); }
  }

  /** The builds that the action creates for the Build of `key`. */
  function CreatedFor(a: Action, key: W.Key): set<BuildRef> {
    if a.OfBuild? && a.key == key then RefsOf(Created(a.step)) else {}
  }

  lemma StepMoves(server: map<BuildRef, AtcBuild>, b: B.State, a: B.Action, b': B.State)
    requires BuildOk(server, b) && B.IsStep(b, a, b')
    ensures I.Inv(b') && b.history <= b'.history
    ensures b'.atc.replies.Keys <= b.atc.replies.Keys + RefsOf(Created(a))
    ensures b'.atc.server == if a.Progress? || a.Foreign? || Created(a).Some? then server[a.b.Ref() := a.b] else server
  {
    I.StepInv(b, a, b');
    StepServer(b, a, b');
    StepReplies(b, a, b');
  }

  /** The parts agree on the server, and only the one who acts may have something created. */
  lemma PartChanges(s: State, a: Action, key: W.Key)
    requires a.OfBuild? ==> !a.step.Progress? && !a.step.Foreign?
    ensures var part := Part(s, a, key);
            NextServer(s, a) ==
            if part.Some? && (part.value.Progress? || part.value.Foreign? || Created(part.value).Some?)
            then s.server[part.value.b.Ref() := part.value.b] else s.server
    ensures CreatedFor(a, key) == if Part(s, a, key).Some? then RefsOf(Created(Part(s, a, key).value)) else {}
  {}

  lemma BuildMoves(s: State, a: Action, key: W.Key)
    requires BuildsOk(s.server, s.builds) && Enabled(s, a) && !a.NewBuild? && key in s.builds
    ensures key in Do(s, a).builds
    ensures var b, b' := s.builds[key], Do(s, a).builds[key];
            && BuildOk(NextServer(s, a), b')
            && b.history <= b'.history
            && b'.atc.replies.Keys <= b.atc.replies.Keys + CreatedFor(a, key)
  {
    var b, b', part := s.builds[key], Do(s, a).builds[key], Part(s, a, key);
    assert BuildOk(s.server, b);
    PartChanges(s, a, key);
    if part.Some? {
      PartIsStep(s, a, key);
      StepMoves(s.server, b, part.value, b');
    } else {
      assert b' == b;
    }
  }

  // ----- All of them -----

  lemma StaysApart(s: State, a: Action, k: W.Key, k': W.Key)
    requires Inv(s) && Enabled(s, a) && !a.NewBuild? && k in s.builds && k' in s.builds && k != k'
    ensures k in Do(s, a).builds && k' in Do(s, a).builds && NoneShared(Do(s, a).builds[k], Do(s, a).builds[k'])
  {
    BuildMoves(s, a, k);
    BuildMoves(s, a, k');
    assert NoneShared(s.builds[k], s.builds[k']);
    assert BuildOk(s.server, s.builds[k]) && BuildOk(s.server, s.builds[k']);
    RepliesAreListed(s.server, s.builds[k]);
    RepliesAreListed(s.server, s.builds[k']);
    CreatedIsNew(s, a, k);
    CreatedIsNew(s, a, k');
  }

  lemma RepliesAreListed(server: map<BuildRef, AtcBuild>, b: B.State)
    requires BuildOk(server, b)
    ensures b.atc.replies.Keys <= server.Keys
  {}

  /** A build created for one Build is new to the server, so no other Build has it. */
  lemma CreatedIsNew(s: State, a: Action, key: W.Key)
    requires BuildsOk(s.server, s.builds) && Enabled(s, a) && key in s.builds
    ensures CreatedFor(a, key) !! s.server.Keys
  {
    assert BuildOk(s.server, s.builds[key]);
  }

  lemma StoredIdKept(b: B.State, b': B.State)
    requires |b.history| > 0 && b.history <= b'.history && I.HistoryOk(b'.history, b'.lastEdit, b'.atc)
    ensures b.Current().status.id != 0 ==> b'.Current().status.id == b.Current().status.id
  {
    assert b'.history[|b.history| - 1] == b.Current();
    assert I.Precedes(b'.history[|b.history| - 1], b'.Current());
  }

  /** A stored ID stays, so a watcher keeps watching the stored build. */
  lemma StillWatchesStored(s: State, a: Action, g: W.Goroutine)
    requires Inv(s) && Enabled(s, a) && !a.NewBuild? && WatchesStored(s.builds, g)
    ensures WatchesStored(Do(s, a).builds, g)
  {
    BuildMoves(s, a, g.key);
    StoredIdKept(s.builds[g.key], Do(s, a).builds[g.key]);
  }

  /** The reconcile that starts a watcher holds the stored ID. */
  lemma SpawnerHoldsStored(b: B.State, r: nat)
    requires I.Inv(b) && B.At(b, r, B.Spawning)
    ensures b.recs[r].draft.id != 0 && b.Current().status.id == b.recs[r].draft.id
  {
    assert I.ReconOk(b.history, b.atc, b.recs[r]);
    assert I.Precedes(b.history[b.recs[r].at], b.Current());
  }

  lemma StartedWatchesStored(s: State, key: W.Key, id: int)
    requires W.Inv(s.watch) && AllWatchStored(s.builds, s.watch)
    requires WatchesStored(s.builds, W.Goroutine(key, id, false))
    ensures var watch := W.Do(s.watch, W.Start(key, id));
            W.Inv(watch) && AllWatchStored(s.builds, watch)
  {
    W.StartKeepsInv(s.watch, key, id);
  }

  lemma SpawnedWatchesStored(s: State, key: W.Key, r: nat)
    requires Inv(s) && key in s.builds && B.At(s.builds[key], r, B.Spawning)
    ensures var watch := W.Do(s.watch, W.Start(key, s.builds[key].recs[r].draft.id));
            W.Inv(watch) && AllWatchStored(s.builds, watch)
  {
    assert BuildOk(s.server, s.builds[key]);
    SpawnerHoldsStored(s.builds[key], r);
    StartedWatchesStored(s, key, s.builds[key].recs[r].draft.id);
  }

  /** The one move of the watchers in an action of the manager. */
  ghost function WatchMove(s: State, a: Action): Option<W.Action>
    requires Enabled(s, a)
  {
    match a
    case SpawnWatcher(key, r) => Some(W.Start(key, s.builds[key].recs[r].draft.id))
    case OfWatcher(move) => Some(move)
    case Consume => Some(W.Take)
    case _ => None
  }

  lemma WatchMoves(s: State, a: Action)
    requires Enabled(s, a)
    ensures var move := WatchMove(s, a);
            if move.Some? then W.Enabled(s.watch, move.value) && NextWatch(s, a) == W.Do(s.watch, move.value)
            else NextWatch(s, a) == s.watch
    ensures WatchMove(s, a).Some? && WatchMove(s, a).value.Start? ==>
              a.SpawnWatcher? && a.key in s.builds && B.At(s.builds[a.key], a.r, B.Spawning)
              && WatchMove(s, a).value == W.Start(a.key, s.builds[a.key].recs[a.r].draft.id)
  {}

  /** Watchers before or after the action watch what is stored before it. */
  lemma WatchersOk(s: State, a: Action)
    requires Inv(s) && Enabled(s, a)
    ensures W.Inv(NextWatch(s, a)) && AllWatchStored(s.builds, NextWatch(s, a))
  {
    var move := WatchMove(s, a);
    WatchMoves(s, a);
    if move.Some? {
      if move.value.Start? { SpawnedWatchesStored(s, a.key, a.r); } else { WatcherMoves(s, move.value); }
    }
  }

  lemma WatcherMoves(s: State, move: W.Action)
    requires W.Inv(s.watch) && AllWatchStored(s.builds, s.watch) && W.Enabled(s.watch, move) && !move.Start?
    ensures var watch := W.Do(s.watch, move); W.Inv(watch) && AllWatchStored(s.builds, watch)
  {
    W.StepInv(s.watch, move);
    var watch := W.Do(s.watch, move);
    forall g <- watch.running ensures WatchesStored(s.builds, watch.running[g]) {
      assert WatchesStored(s.builds, s.watch.running[g]);
    }
  }

  lemma NewBuildKeepsInv(s: State, key: W.Key, initial: B.State)
    requires Inv(s) && Enabled(s, NewBuild(key, initial))
    ensures Inv(Do(s, NewBuild(key, initial)))
  {
    var builds := s.builds[key := initial];
    I.InitInv(initial);
    forall k <- builds ensures BuildOk(s.server, builds[k]) {
      assert k != key ==> BuildOk(s.server, s.builds[k]);
    }
    NewBuildApart(s.builds, key, initial);
    forall g <- s.watch.running ensures WatchesStored(builds, s.watch.running[g]) {
      assert WatchesStored(s.builds, s.watch.running[g]);
    }
  }

  lemma NewBuildApart(builds: map<W.Key, B.State>, key: W.Key, initial: B.State)
    requires Apart(builds) && key !in builds && initial.atc.replies == map[]
    ensures Apart(builds[key := initial])
  {
    forall k <- builds, k' <- builds | k != k' ensures NoneShared(builds[k], builds[k']) {}
  }

  lemma StepInv(s: State, a: Action)
    requires Inv(s) && Enabled(s, a)
    ensures Inv(Do(s, a))
  {
    if a.NewBuild? {
      NewBuildKeepsInv(s, a.key, a.initial);
    } else {
      var s' := Do(s, a);
      forall k <- s'.builds ensures BuildOk(s'.server, s'.builds[k]) { BuildMoves(s, a, k); }
      forall k <- s'.builds, k' <- s'.builds | k != k' ensures NoneShared(s'.builds[k], s'.builds[k']) {
        StaysApart(s, a, k, k');
      }
      WatchersOk(s, a);
      forall g <- s'.watch.running ensures WatchesStored(s'.builds, s'.watch.running[g]) {
        StillWatchesStored(s, a, s'.watch.running[g]);
      }
    }
  }

  lemma {:induction false} RunInv(states: seq<State>, actions: seq<Action>, i: nat)
    requires IsRun(states, actions) && i < |states|
    ensures Inv(states[i])
  {
    if i > 0 {
      RunInv(states, actions, i - 1);
      StepInv(states[i - 1], actions[i - 1]);
    }
  }

  // ----- What every run of the manager keeps -----

  /** Watcher exclusivity and accounting in every reachable state of the manager. */
  lemma WatchersAreExclusive(states: seq<State>, actions: seq<Action>, i: nat)
    requires IsRun(states, actions) && i < |states|
    ensures var w := states[i].watch;
            && (forall key :: key in w.sentinels <==> exists g :: W.Watches(w, g, key))
            && (forall g, g', key :: W.Watches(w, g, key) && W.Watches(w, g', key) ==> g == g')
            && |w.channel| <= 64
            && w.started == |W.Unsent(w)| + |w.channel| + w.consumed
    ensures forall g <- states[i].watch.running :: WatchesStored(states[i].builds, states[i].watch.running[g])
  {
    RunInv(states, actions, i);
  }

  /** The moves of watcher `g` that are enabled, and when the controller can take an event. */
  lemma WatcherCanMove(s: State, g: nat)
    requires g in s.watch.running
    ensures s.watch.running[g].sent <==> Enabled(s, OfWatcher(W.Finish(g)))
    ensures !s.watch.running[g].sent && |s.watch.channel| < 64 <==> Enabled(s, OfWatcher(W.Post(g)))
    ensures s.watch.channel != [] <==> Enabled(s, Consume)
  {}

  /** No watcher is stuck: it can send or release its sentinel, unless exactly 64 events wait; then the controller can
      take one. */
  lemma WatchersMoveOn(states: seq<State>, actions: seq<Action>, i: nat, g: nat)
    requires IsRun(states, actions) && i < |states| && g in states[i].watch.running
    ensures || Enabled(states[i], OfWatcher(W.Finish(g)))
            || Enabled(states[i], OfWatcher(W.Post(g)))
            || (|states[i].watch.channel| == 64 && Enabled(states[i], Consume))
  {
    WatchersAreExclusive(states, actions, i);
    WatcherCanMove(states[i], g);
  }

  /** No two Builds ever store the same Concourse build; the same number on two servers is two builds. */
  lemma BuildsAreNotShared(states: seq<State>, actions: seq<Action>, i: nat, k: W.Key, k': W.Key)
    requires IsRun(states, actions) && i < |states|
    requires k in states[i].builds && k' in states[i].builds && k != k'
    ensures |states[i].builds[k].history| > 0 && |states[i].builds[k'].history| > 0
    ensures states[i].builds[k].Current().status.id != 0 ==> states[i].builds[k].Stored() != states[i].builds[k'].Stored()
  {
    RunInv(states, actions, i);
    var b, b' := states[i].builds[k], states[i].builds[k'];
    assert BuildOk(states[i].server, b) && BuildOk(states[i].server, b') && NoneShared(b, b');
    assert I.Good(b.Current().status, b.atc);
    assert I.Good(b'.Current().status, b'.atc);
  }

  // ----- No lost wake-up, with watchers -----

  /** A watcher of the Build has its event still to send, or the event is in the channel. */
  ghost predicate EventPending(watch: W.State, key: W.Key) {
    key in watch.channel || exists g <- W.Unsent(watch) :: watch.running[g].key == key
  }

  /** Something will reconcile the Build: what wakes it by itself, or an event of its watcher, whether the
      sentinel of that watcher is released or not. */
  ghost predicate Awake(s: State, key: W.Key) {
    key in s.builds && (U.Awake(s.builds[key]) || EventPending(s.watch, key))
  }

  /** The Build exists and nothing will reconcile it. */
  ghost predicate Asleep(s: State, key: W.Key) {
    key in s.builds && !Awake(s, key)
  }

  ghost predicate LiveAsleep(s: State, key: W.Key) {
    Asleep(s, key) && |s.builds[key].history| > 0 && U.Live(s.builds[key])
  }

  /** The action takes the last wake-up of the Build of `key`: its last alert reconcile meets a missing Job while
      no event of its watchers is pending. */
  ghost predicate LosesWakeUp(s: State, a: Action, key: W.Key) {
    && key in s.builds && Part(s, a, key).Some? && U.LosesWakeUp(s.builds[key], Part(s, a, key).value)
    && !EventPending(s.watch, key)
  }

  /** The action wakes that Build. */
  ghost predicate Waking(s: State, a: Action, key: W.Key) {
    key in s.builds && Part(s, a, key).Some? && U.Waking(s.builds[key], Part(s, a, key).value)
  }

  ghost predicate NoneWakes(states: seq<State>, actions: seq<Action>, j: nat, i: nat, key: W.Key)
    requires i <= |actions| < |states|
  {
    forall k :: j < k < i ==> !Waking(states[k], actions[k], key)
  }

  ghost predicate LostAt(states: seq<State>, actions: seq<Action>, j: nat, i: nat, key: W.Key)
    requires j < i <= |actions| < |states|
  {
    LosesWakeUp(states[j], actions[j], key) && NoneWakes(states, actions, j, i, key)
  }

  ghost predicate Lost(states: seq<State>, actions: seq<Action>, i: nat, key: W.Key)
    requires i <= |actions| < |states|
  {
    exists j :: 0 <= j < i && LostAt(states, actions, j, i, key)
  }

  /** An event becomes pending only when a watcher starts, and stops being so only when it is consumed. */
  lemma MoveEvents(watch: W.State, move: W.Action, key: W.Key)
    requires W.Inv(watch) && W.Enabled(watch, move)
    ensures EventPending(watch, key) ==> EventPending(W.Do(watch, move), key) || (move.Take? && watch.channel[0] == key)
    ensures EventPending(W.Do(watch, move), key) ==> EventPending(watch, key) || (move.Start? && move.key == key)
  {
    var watch' := W.Do(watch, move);
    if g :| g in W.Unsent(watch) && watch.running[g].key == key {
      if move.Post? && move.g == g {
        assert watch'.channel[|watch.channel|] == key;
      } else {
        assert g in W.Unsent(watch') && watch'.running[g].key == key;
      }
    } else if key in watch.channel && move.Take? && watch.channel[0] != key {
      assert key in watch.channel[1..];
    }
    if g :| g in W.Unsent(watch') && watch'.running[g].key == key {
      assert g in W.Unsent(watch) || (move.Start? && move.key == key);
    }
  }

  lemma StepEvents(s: State, a: Action, key: W.Key)
    requires Inv(s) && Enabled(s, a) && key in s.builds
    ensures EventPending(s.watch, key) ==> EventPending(Do(s, a).watch, key) || Part(s, a, key) == Some(B.Enqueue)
    ensures EventPending(Do(s, a).watch, key) ==> EventPending(s.watch, key) || (a.SpawnWatcher? && a.key == key)
  {
    WatchMoves(s, a);
    if WatchMove(s, a).Some? { MoveEvents(s.watch, WatchMove(s, a).value, key); }
  }

  /** The part of the Build itself. */
  lemma PartAsleepAfter(s: State, a: Action, key: W.Key)
    requires BuildsOk(s.server, s.builds) && Enabled(s, a) && key in s.builds && Part(s, a, key).Some?
    requires var b' := Do(s, a).builds[key]; |b'.history| > 0 && U.Live(b') && !U.Awake(b')
    ensures var b, part := s.builds[key], Part(s, a, key).value;
            U.LosesWakeUp(b, part) || (|b.history| > 0 && U.Live(b) && !U.Awake(b) && !U.Waking(b, part))
  {
    assert BuildOk(s.server, s.builds[key]);
    PartIsStep(s, a, key);
    U.AsleepAfter(s.builds[key], Part(s, a, key).value, Do(s, a).builds[key]);
  }

  lemma AsleepAfter(s: State, a: Action, key: W.Key)
    requires Inv(s) && Enabled(s, a) && LiveAsleep(Do(s, a), key)
    ensures LosesWakeUp(s, a, key) || (LiveAsleep(s, key) && !Waking(s, a, key))
  {
    if key in s.builds {
      StepEvents(s, a, key);
      if Part(s, a, key).Some? {
        PartAsleepAfter(s, a, key);
      } else {
        assert Do(s, a).builds[key] == s.builds[key];
      }
    }
  }

  lemma StaysAsleep(s: State, a: Action, key: W.Key)
    requires Inv(s) && Enabled(s, a) && key in s.builds
    requires LosesWakeUp(s, a, key) || (Asleep(s, key) && !Waking(s, a, key))
    ensures Asleep(Do(s, a), key)
  {
    var b, b' := s.builds[key], Do(s, a).builds[key];
    assert BuildOk(s.server, b);
    StepEvents(s, a, key);
    if Part(s, a, key).Some? {
      PartIsStep(s, a, key);
      var step := Part(s, a, key).value;
      if U.LosesWakeUp(b, step) { U.FallsAsleep(b, step, b'); } else { U.StaysAsleep(b, step, b'); }
    } else {
      assert b' == b;
    }
  }

  lemma StepSleepsOn(states: seq<State>, actions: seq<Action>, i: nat, key: W.Key)
    requires IsRun(states, actions) && i < |actions| && Asleep(states[i], key) && !Waking(states[i], actions[i], key)
    ensures Asleep(states[i + 1], key)
  {
    RunInv(states, actions, i);
    StaysAsleep(states[i], actions[i], key);
  }

  lemma {:induction false} SleepsOn(states: seq<State>, actions: seq<Action>, j: nat, i: nat, key: W.Key)
    requires IsRun(states, actions) && j < i < |states| && Asleep(states[j + 1], key) && NoneWakes(states, actions, j, i, key)
    ensures Asleep(states[i], key)
  {
    if j + 1 < i {
      assert !Waking(states[i - 1], actions[i - 1], key);
      assert NoneWakes(states, actions, j, i - 1, key);
      SleepsOn(states, actions, j, i - 1, key);
      StepSleepsOn(states, actions, i - 1, key);
    }
  }

  lemma LostIsAsleep(states: seq<State>, actions: seq<Action>, i: nat, j: nat, key: W.Key)
    requires IsRun(states, actions) && j < i < |states| && LostAt(states, actions, j, i, key)
    ensures Asleep(states[i], key)
  {
    RunInv(states, actions, j);
    StaysAsleep(states[j], actions[j], key);
    SleepsOn(states, actions, j, i, key);
  }

  lemma {:induction false} AsleepIsLost(states: seq<State>, actions: seq<Action>, i: nat, key: W.Key)
    requires IsRun(states, actions) && i < |states| && LiveAsleep(states[i], key)
    ensures Lost(states, actions, i, key)
  {
    if i > 0 {
      RunInv(states, actions, i - 1);
      AsleepAfter(states[i - 1], actions[i - 1], key);
      if LosesWakeUp(states[i - 1], actions[i - 1], key) {
        assert NoneWakes(states, actions, i - 1, i, key);
        assert LostAt(states, actions, i - 1, i, key);
      } else {
        AsleepIsLost(states, actions, i - 1, key);
        var j :| 0 <= j < i - 1 && LostAt(states, actions, j, i - 1, key);
        assert NoneWakes(states, actions, j, i, key);
        assert LostAt(states, actions, j, i, key);
      }
    }
  }

  /** No lost wake-up, with all Builds and all watchers: in every reachable state a live Build has nothing pending,
      no event of a watcher either, if and only if at some time its last alert reconcile met a missing Job with no
      such event pending, and nothing has woken it since. */
  lemma NoLostWakeUp(states: seq<State>, actions: seq<Action>, i: nat, key: W.Key)
    requires IsRun(states, actions) && i < |states| && key in states[i].builds
    ensures |states[i].builds[key].history| > 0
    ensures U.Live(states[i].builds[key]) ==> (!Awake(states[i], key) <==> Lost(states, actions, i, key))
  {
    RunInv(states, actions, i);
    assert BuildOk(states[i].server, states[i].builds[key]);
    if LiveAsleep(states[i], key) { AsleepIsLost(states, actions, i, key); }
    if Lost(states, actions, i, key) {
      var j :| 0 <= j < i && LostAt(states, actions, j, i, key);
      LostIsAsleep(states, actions, i, j, key);
    }
  }
}
