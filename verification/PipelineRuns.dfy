/** Convergence of a Pipeline over runs, and runs in which the recorded hash and the server come apart
    (internal/controller/pipeline_controller.go). */
module PipelineRuns {
  import opened ApiServer
  import opened PipelineStatuses
  import opened PipelineProtocol
  import opened Resolver

  ghost predicate IsStep(hash: HashFn, s: State, a: Action, s': State) {
    Enabled(s, a) && s' == Do(hash, s, a)
  }

  /** Actions `i` to `i + 8` of the run are one undisturbed reconcile of config `desired` with the given replies,
      all the way to a stored status. */
  ghost predicate IsPass(states: seq<State>, actions: seq<Action>, i: nat, walk: Walk, rs: Replies, desired: string) {
    && i + 8 <= |actions| < |states| && |states[i].history| > 0
    && actions[i] == Read(|states[i].history| - 1)
    && actions[i + 1] == Resolve(true, walk)
    && actions[i + 2] == Load(false)
    && actions[i + 3] == Apply(rs.apply)
    && actions[i + 4] == Pause(rs.pauseOk)
    && actions[i + 5] == Expose(rs.exposeOk)
    && actions[i + 6] == Fetch(rs.fetchOk)
    && actions[i + 7] == Write(Acked)
    && LoadConfig(Last(states[i].history).spec.config, states[i].maps, false) == Some(desired)
  }

  ghost function PassOf(hash: HashFn, s: State, desired: string, rs: Replies): PassResult
    requires |s.history| > 0
  {
    var o := Last(s.history);
    Pass(hash, o.spec, o.generation, desired, o.status, s.server, rs)
  }

  /** Nothing but the stored object, the server and the reconcile has changed. */
  predicate SameRest(s: State, s': State) {
    s'.namespace == s.namespace && s'.maps == s.maps && s'.gone == s.gone && s'.deleted == s.deleted
  }

  /** What holds between the apply and the pause sync of an undisturbed reconcile that began in `s`. */
  ghost predicate Half(hash: HashFn, s: State, s': State, rs: Replies, desired: string)
    requires |s.history| > 0
  {
    var o := Last(s.history);
    var needs := NeedsApply(hash, o.status, desired);
    && !o.deleting && SameRest(s, s')
    && s'.history == s.history && s'.run.Some? && s'.run.value.at == |s.history| - 1
    && (needs ==> rs.apply.ApplyOk?)
    && s'.run.value.draft == (if needs then StatusApplied(o.status, hash(desired), rs.apply.warnings) else o.status)
    && s'.server == (if needs then Applied(s.server, desired, rs.apply) else s.server)
  }

  lemma ReadAndLoad(hash: HashFn, s: State, s1: State, s2: State, s3: State, walk: Walk, desired: string)
    requires |s.history| > 0 && IsStep(hash, s, Read(|s.history| - 1), s1)
    requires IsStep(hash, s1, Resolve(true, walk), s2) && IsStep(hash, s2, Load(false), s3)
    requires LoadConfig(Last(s.history).spec.config, s.maps, false) == Some(desired)
    ensures !Last(s.history).deleting
    ensures s3 == s.(run := Some(Recon(Applying, |s.history| - 1, Some(walk), desired, false, false, false, Last(s.history).status)))
  {}

  lemma ApplyReaches(hash: HashFn, s: State, s3: State, s4: State, walk: Walk, rs: Replies, desired: string)
    requires |s.history| > 0 && !Last(s.history).deleting
    requires s3 == s.(run := Some(Recon(Applying, |s.history| - 1, Some(walk), desired, false, false, false, Last(s.history).status)))
    requires IsStep(hash, s3, Apply(rs.apply), s4) && At(s4, Pausing)
    ensures Half(hash, s, s4, rs, desired)
  {}

  lemma FirstHalf(hash: HashFn, states: seq<State>, actions: seq<Action>, i: nat, walk: Walk, rs: Replies, desired: string)
    requires IsRun(hash, states, actions) && IsPass(states, actions, i, walk, rs, desired)
    ensures states[i].run.None? && Half(hash, states[i], states[i + 4], rs, desired)
  {
    assert IsStep(hash, states[i], actions[i], states[i + 1]);
    assert IsStep(hash, states[i + 1], actions[i + 1], states[i + 2]);
    assert IsStep(hash, states[i + 2], actions[i + 2], states[i + 3]);
    ReadAndLoad(hash, states[i], states[i + 1], states[i + 2], states[i + 3], walk, desired);
    assert IsStep(hash, states[i + 3], actions[i + 3], states[i + 4]);
    assert Enabled(states[i + 4], actions[i + 4]);
    ApplyReaches(hash, states[i], states[i + 3], states[i + 4], walk, rs, desired);
  }

  /** The pause and the exposure sync. */
  lemma SyncedFlags(hash: HashFn, s: State, s1: State, s2: State, rs: Replies)
    requires IsStep(hash, s, Pause(rs.pauseOk), s1) && IsStep(hash, s1, Expose(rs.exposeOk), s2)
    ensures s2.history == s.history && SameRest(s, s2) && s2.run.Some? && s2.run.value.at == s.run.value.at
    ensures var spec := s.history[s.run.value.at].spec;
            var st := if rs.pauseOk then s.run.value.draft.(paused := spec.paused) else s.run.value.draft;
            var sv := if rs.pauseOk then Paused(s.server, spec.paused) else s.server;
            && s2.run.value.draft == (if rs.exposeOk then st.(exposed := spec.exposed) else st)
            && s2.server == (if rs.exposeOk then Exposed(sv, spec.exposed) else sv)
  {}

  lemma FetchedAndWritten(hash: HashFn, s: State, s1: State, s2: State, fetchOk: bool, fate: Fate)
    requires IsStep(hash, s, Fetch(fetchOk), s1) && IsStep(hash, s1, Write(fate), s2)
    ensures s2.server == s.server && s2.run.None? && SameRest(s, s2)
    ensures var c := s.run.value;
            var st := if fetchOk then StatusFetched(c.draft, s.server) else c.draft;
            s2.history == if fate.Rejected? then s.history
                          else PutStatus(s.history, StatusReady(st, s.history[c.at].generation))
  {}

  /** From the pause sync on. */
  lemma SecondHalf(hash: HashFn, s0: State, s: State, s1: State, s2: State, s3: State, s4: State, rs: Replies, desired: string,
                   fate: Fate)
    requires |s0.history| > 0 && Half(hash, s0, s, rs, desired)
    requires IsStep(hash, s, Pause(rs.pauseOk), s1) && IsStep(hash, s1, Expose(rs.exposeOk), s2)
    requires IsStep(hash, s2, Fetch(rs.fetchOk), s3) && IsStep(hash, s3, Write(fate), s4)
    ensures var p := PassOf(hash, s0, desired, rs);
            && p.synced && s4.server == p.server && s4.run.None? && SameRest(s0, s4)
            && s4.history == if fate.Rejected? then s0.history else PutStatus(s0.history, p.status)
  {
    SyncedFlags(hash, s, s1, s2, rs);
    FetchedAndWritten(hash, s2, s3, s4, rs.fetchOk, fate);
  }

  /** An undisturbed reconcile of the protocol is one pass of the specification. */
  lemma UndisturbedIsPass(hash: HashFn, states: seq<State>, actions: seq<Action>, i: nat, walk: Walk, rs: Replies,
                          desired: string)
    requires IsRun(hash, states, actions) && IsPass(states, actions, i, walk, rs, desired)
    ensures var p, s' := PassOf(hash, states[i], desired, rs), states[i + 8];
            && states[i].run.None? && !Last(states[i].history).deleting
            && p.synced && s'.server == p.server && s'.run.None? && SameRest(states[i], s')
            && s'.history == PutStatus(states[i].history, p.status)
  {
    FirstHalf(hash, states, actions, i, walk, rs, desired);
    assert IsStep(hash, states[i + 4], actions[i + 4], states[i + 5]);
    assert IsStep(hash, states[i + 5], actions[i + 5], states[i + 6]);
    assert IsStep(hash, states[i + 6], actions[i + 6], states[i + 7]);
    assert IsStep(hash, states[i + 7], actions[i + 7], states[i + 8]);
    SecondHalf(hash, states[i], states[i + 4], states[i + 5], states[i + 6], states[i + 7], states[i + 8], rs, desired, Acked);
  }

  lemma StepServerId(hash: HashFn, s: State, a: Action)
    requires Enabled(s, a) && (s.server.Some? ==> s.server.value.id > 0)
    ensures var s' := Do(hash, s, a); s'.server.Some? ==> s'.server.value.id > 0
  {
    if !a.Apply? && !a.Pause? && !a.Expose? && !a.Delete? { OtherServerKept(hash, s, a); }
  }

  lemma OtherServerKept(hash: HashFn, s: State, a: Action)
    requires Enabled(s, a) && !a.Apply? && !a.Pause? && !a.Expose? && !a.Delete?
    ensures Do(hash, s, a).server == s.server
  {}

  lemma {:induction false} ServerIdPositive(hash: HashFn, states: seq<State>, actions: seq<Action>, i: nat)
    requires IsRun(hash, states, actions) && i < |states|
    ensures states[i].server.Some? ==> states[i].server.value.id > 0
  {
    if i > 0 {
      ServerIdPositive(hash, states, actions, i - 1);
      StepServerId(hash, states[i - 1], actions[i - 1]);
    }
  }

  /** Two passes in a row, on the stored object. */
  lemma SecondPassIsIdle(hash: HashFn, s: State, s': State, s'': State, desired: string, rs: Replies, rs': Replies)
    requires GoodHash(hash) && FaultFree(rs) && FaultFree(rs') && |s.history| > 0 && |s'.history| > 0
    requires Match(hash, Last(s.history).status, s.server) && (s.server.Some? ==> s.server.value.id > 0)
    requires var p := PassOf(hash, s, desired, rs); s'.server == p.server && s'.history == PutStatus(s.history, p.status)
    requires var p := PassOf(hash, s', desired, rs'); s''.server == p.server && s''.history == PutStatus(s'.history, p.status)
    ensures Settled(s', desired) && s''.server == s'.server && s''.history == s'.history
  {
    var o := Last(s.history);
    PipelineConverges(hash, o.spec, o.generation, desired, o.status, s.server, rs, rs');
  }

  /** The server is what the stored spec says. */
  ghost predicate Settled(s: State, desired: string) {
    && |s.history| > 0 && s.server.Some? && s.server.value.config == desired
    && s.server.value.paused == Last(s.history).spec.paused && s.server.value.exposed == Last(s.history).spec.exposed
  }

  /** Convergence over runs: after an undisturbed, fault-free reconcile the server is what the spec says, and a
      second one right after it changes neither the server nor the stored object: no new version. */
  lemma ConvergesInRuns(hash: HashFn, states: seq<State>, actions: seq<Action>, i: nat, walk: Walk, rs: Replies,
                        walk': Walk, rs': Replies, desired: string)
    requires GoodHash(hash) && IsRun(hash, states, actions) && i <= |actions| && Faithful(states, actions, i)
    requires FaultFree(rs) && FaultFree(rs')
    requires IsPass(states, actions, i, walk, rs, desired) && IsPass(states, actions, i + 8, walk', rs', desired)
    ensures Settled(states[i + 8], desired)
    ensures states[i + 16].server == states[i + 8].server && states[i + 16].history == states[i + 8].history
  {
    UndisturbedIsPass(hash, states, actions, i, walk, rs, desired);
    UndisturbedIsPass(hash, states, actions, i + 8, walk', rs', desired);
    RecordedHashMatchesServer(hash, states, actions, i);
    ServerIdPositive(hash, states, actions, i);
    SecondPassIsIdle(hash, states[i], states[i + 8], states[i + 16], desired, rs, rs');
  }

  // ----- Concrete runs -----

  lemma Extend(hash: HashFn, states: seq<State>, actions: seq<Action>, a: Action)
      returns (states': seq<State>, actions': seq<Action>)
    requires IsRun(hash, states, actions) && Enabled(Last(states), a)
    ensures IsRun(hash, states', actions') && IsStep(hash, Last(states), a, Last(states')) && actions' == actions + [a]
    ensures NoneLost(states, actions) && !LosesApply(Last(states), a) ==> NoneLost(states', actions')
  {
    states', actions' := states + [Do(hash, Last(states), a)], actions + [a];
  }

  /** No status write was lost after an apply. */
  ghost predicate NoneLost(states: seq<State>, actions: seq<Action>) {
    |states| == |actions| + 1 && Faithful(states, actions, |actions|)
  }

  /** An inline config that is ready to be reconciled. */
  ghost predicate Ready(s: State, walk: Walk, desired: string) {
    && |s.history| > 0 && s.run.None? && !s.gone && !Last(s.history).deleting && Last(s.history).finalizer
    && walk.PipelineResolves(s.namespace, Last(s.history).spec.teamRef)
    && desired != "" && Last(s.history).spec.config.inline == desired
  }

  lemma ExtendToPause(hash: HashFn, states: seq<State>, actions: seq<Action>, walk: Walk, rs: Replies, desired: string)
      returns (states': seq<State>, actions': seq<Action>)
    requires IsRun(hash, states, actions) && Ready(Last(states), walk, desired)
    requires rs.apply.ApplyOk? && rs.apply.newID > 0
    ensures IsRun(hash, states', actions') && At(Last(states'), Pausing)
    ensures Half(hash, Last(states), Last(states'), rs, desired)
    ensures NoneLost(states, actions) ==> NoneLost(states', actions')
  {
    var s := Last(states);
    states', actions' := Extend(hash, states, actions, Read(|s.history| - 1));
    var s1 := Last(states');
    states', actions' := Extend(hash, states', actions', Resolve(true, walk));
    var s2 := Last(states');
    states', actions' := Extend(hash, states', actions', Load(false));
    var s3 := Last(states');
    ReadAndLoad(hash, s, s1, s2, s3, walk, desired);
    states', actions' := Extend(hash, states', actions', Apply(rs.apply));
    ApplyReaches(hash, s, s3, Last(states'), walk, rs, desired);
  }

  lemma SyncGoesOn(hash: HashFn, s: State, a: Action, s': State)
    requires IsStep(hash, s, a, s') && (a.Pause? || a.Expose? || a.Fetch?)
    ensures s'.history == s.history && SameRest(s, s') && s.run.Some? && s'.run.Some? && s'.run.value.at == s.run.value.at
    ensures At(s', if a.Pause? then Exposing else if a.Expose? then Fetching else Writing) && !LosesApply(s, a)
  {}

  lemma ExtendToFetch(hash: HashFn, states: seq<State>, actions: seq<Action>, rs: Replies)
      returns (states': seq<State>, actions': seq<Action>, s1: State, s2: State)
    requires IsRun(hash, states, actions) && At(Last(states), Pausing)
    ensures IsRun(hash, states', actions') && IsStep(hash, Last(states), Pause(rs.pauseOk), s1)
    ensures IsStep(hash, s1, Expose(rs.exposeOk), s2) && IsStep(hash, s2, Fetch(rs.fetchOk), Last(states'))
    ensures At(Last(states'), Writing) && Last(states').run.value.at == Last(states).run.value.at
    ensures Last(states').history == Last(states).history && SameRest(Last(states), Last(states'))
    ensures NoneLost(states, actions) ==> NoneLost(states', actions')
  {
    states', actions' := Extend(hash, states, actions, Pause(rs.pauseOk));
    s1 := Last(states');
    SyncGoesOn(hash, Last(states), Pause(rs.pauseOk), s1);
    states', actions' := Extend(hash, states', actions', Expose(rs.exposeOk));
    s2 := Last(states');
    SyncGoesOn(hash, s1, Expose(rs.exposeOk), s2);
    states', actions' := Extend(hash, states', actions', Fetch(rs.fetchOk));
    SyncGoesOn(hash, s2, Fetch(rs.fetchOk), Last(states'));
  }

  lemma ExtendToWrite(hash: HashFn, states: seq<State>, actions: seq<Action>, s0: State, rs: Replies, desired: string, fate: Fate)
      returns (states': seq<State>, actions': seq<Action>)
    requires IsRun(hash, states, actions) && |s0.history| > 0
    requires At(Last(states), Pausing) && !s0.gone && Half(hash, s0, Last(states), rs, desired)
    ensures IsRun(hash, states', actions') && Last(states').run.None? && SameRest(s0, Last(states'))
    ensures var p, s' := PassOf(hash, s0, desired, rs), Last(states');
            s'.server == p.server && s'.history == if fate.Rejected? then s0.history else PutStatus(s0.history, p.status)
    ensures NoneLost(states, actions) && !fate.Rejected? ==> NoneLost(states', actions')
  {
    var s1, s2;
    states', actions', s1, s2 := ExtendToFetch(hash, states, actions, rs);
    var s3 := Last(states');
    states', actions' := Extend(hash, states', actions', Write(fate));
    SecondHalf(hash, s0, Last(states), s1, s2, s3, Last(states'), rs, desired, fate);
  }

  /** Any run goes on with an undisturbed reconcile whose status write has the given fate. */
  lemma ExtendWithPass(hash: HashFn, states: seq<State>, actions: seq<Action>, walk: Walk, rs: Replies, desired: string, fate: Fate)
      returns (states': seq<State>, actions': seq<Action>)
    requires IsRun(hash, states, actions) && Ready(Last(states), walk, desired)
    requires rs.apply.ApplyOk? && rs.apply.newID > 0
    ensures IsRun(hash, states', actions') && Last(states').run.None? && SameRest(Last(states), Last(states'))
    ensures var s, s' := Last(states), Last(states');
            var p := PassOf(hash, s, desired, rs);
            s'.server == p.server && s'.history == if fate.Rejected? then s.history else PutStatus(s.history, p.status)
    ensures NoneLost(states, actions) && !fate.Rejected? ==> NoneLost(states', actions')
  {
    states', actions' := ExtendToPause(hash, states, actions, walk, rs, desired);
    states', actions' := ExtendToWrite(hash, states', actions', Last(states), rs, desired, fate);
  }

  function Inline(config: string): PipelineSpec {
    PipelineSpec("team", ConfigSource(config, None), false, false)
  }

  const REPLIES := Replies(ApplyOk(1, 0, 0, false), true, true, true)

  /** A living object whose recorded hash is that of config "a". */
  ghost predicate Recorded(hash: HashFn, s: State) {
    && |s.history| > 0 && s.run.None? && s.namespace == "ns" && !s.gone
    && !Last(s.history).deleting && Last(s.history).finalizer && Last(s.history).spec.teamRef == "team"
    && Last(s.history).status.hash == hash("a") && Last(s.history).status.id > 0
  }

  /** Config "a" is applied and recorded. */
  lemma ConfigIsRecorded(hash: HashFn, walk: Walk) returns (states: seq<State>, actions: seq<Action>)
    requires GoodHash(hash) && walk.PipelineResolves("ns", "team")
    ensures IsRun(hash, states, actions) && NoneLost(states, actions) && Recorded(hash, Last(states))
    ensures Last(states).server.Some? && Last(states).server.value.config == "a" && Last(states).server.value.id > 0
  {
    var v := Object(1, false, true, Inline("a"), EMPTY_STATUS);
    states, actions := [State("ns", [v], map[], None, None, false, false, None)], [];
    states, actions := ExtendWithPass(hash, states, actions, walk, REPLIES, "a", Acked);
    PipelineConverges(hash, Inline("a"), 1, "a", EMPTY_STATUS, None, REPLIES, REPLIES);
  }

  lemma EditExtends(hash: HashFn, states: seq<State>, actions: seq<Action>, config: string)
      returns (states': seq<State>, actions': seq<Action>)
    requires IsRun(hash, states, actions) && Recorded(hash, Last(states))
    ensures IsRun(hash, states', actions') && Recorded(hash, Last(states'))
    ensures Last(states').server == Last(states).server && Last(Last(states').history).spec == Inline(config)
  {
    states', actions' := Extend(hash, states, actions, Edit(Inline(config)));
  }

  /** After that, config "b" is applied and not recorded. */
  lemma ServerIsAhead(hash: HashFn, walk: Walk) returns (states: seq<State>, actions: seq<Action>)
    requires GoodHash(hash) && walk.PipelineResolves("ns", "team")
    ensures IsRun(hash, states, actions) && Recorded(hash, Last(states))
    ensures Last(states).server.Some? && Last(states).server.value.config == "b"
  {
    states, actions := ConfigIsRecorded(hash, walk);
    states, actions := EditExtends(hash, states, actions, "b");
    var s := Last(states);
    var o := Last(s.history);
    states, actions := ExtendWithPass(hash, states, actions, walk, REPLIES, "b", Rejected);
    PipelineConverges(hash, o.spec, o.generation, "b", o.status, s.server, REPLIES, REPLIES);
  }

  /** A run from the start that ends Ready with config "a" wanted and config "b" on the server. */
  lemma LostWriteSkipsInARun(hash: HashFn) returns (states: seq<State>, actions: seq<Action>)
    requires GoodHash(hash)
    ensures IsRun(hash, states, actions)
    ensures var s := Last(states);
            && |s.history| > 0 && s.run.None? && Last(s.history).spec.config.inline == "a"
            && IsStatusConditionTrue(Last(s.history).status.conds, READY)
            && Last(s.history).status.observed == Last(s.history).generation
            && s.server.Some? && s.server.value.config == "b"
  {
    var walk := ReadyWalk("ns", "pipeline", "team", "url");
    states, actions := ServerIsAhead(hash, walk);
    states, actions := EditExtends(hash, states, actions, "a");
    var s := Last(states);
    var o := Last(s.history);
    states, actions := ExtendWithPass(hash, states, actions, walk, REPLIES, "a", Acked);
    LostWriteHealsIff(hash, o.spec, o.generation, "a", "a", o.status, s.server, REPLIES);
  }

  /** Any run goes on with a deletion pass whose call succeeds and whose finalizer write fails. */
  lemma DeletionExtends(hash: HashFn, states: seq<State>, actions: seq<Action>, walk: Walk)
      returns (states': seq<State>, actions': seq<Action>)
    requires IsRun(hash, states, actions) && |Last(states).history| > 0 && Last(states).run.None?
    requires var o := Last(Last(states).history);
             o.deleting && o.finalizer && walk.PipelineResolves(Last(states).namespace, o.spec.teamRef)
    ensures IsRun(hash, states', actions') && (NoneLost(states, actions) ==> NoneLost(states', actions'))
    ensures Last(states') == Last(states).(server := None, reference := None, deleted := true)
  {
    states', actions' := Extend(hash, states, actions, Read(|Last(states).history| - 1));
    states', actions' := Extend(hash, states', actions', Delete(DeleteDone, walk));
    states', actions' := Extend(hash, states', actions', RemoveFinalizer(Rejected));
  }

  /** A run from the start in which no apply is lost and which ends with a recorded hash and nothing on the server:
      the delete call succeeds and the finalizer cannot be removed. */
  lemma DeletedKeepsItsHash(hash: HashFn) returns (states: seq<State>, actions: seq<Action>)
    requires GoodHash(hash)
    ensures IsRun(hash, states, actions) && NoneLost(states, actions)
    ensures var s := Last(states);
            && |s.history| > 0 && s.run.None? && !s.gone && Last(s.history).deleting && Last(s.history).finalizer
            && Last(s.history).status.hash != "" && s.server.None?
  {
    var walk := ReadyWalk("ns", "pipeline", "team", "url");
    states, actions := ConfigIsRecorded(hash, walk);
    states, actions := Extend(hash, states, actions, MarkDeleting);
    states, actions := DeletionExtends(hash, states, actions, walk);
  }
}
