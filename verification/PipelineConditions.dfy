/** When a Pipeline reconcile applies, what the status it stores tells, and what a deletion pass leaves, over every
    run (internal/controller/pipeline_controller.go). */
module PipelineConditions {
  import opened ApiServer
  import opened PipelineStatuses
  import opened PipelineProtocol
  import opened PipelineRuns
  import opened Resolver

  /** The recorded status asks for the apply call. */
  ghost predicate Wants(hash: HashFn, st: PipelineStatus, desired: string) {
    st.id == 0 || st.hash != hash(desired)
  }

  /** Ready is False with a reason; only a failed apply call says so of the config too. */
  ghost predicate Trouble(before: Conditions, after: Conditions) {
    && ("Ready" in after && after["Ready"].status == CondFalse)
    && after["Ready"].reason in {"TeamNotReady", "ConfigLoadFailed", "SetPipelineFailed"}
    && (if after["Ready"].reason == "SetPipelineFailed" then Has(after, "ConfigSynced", CondFalse, "SetPipelineFailed")
        else SameCondition(before, after, "ConfigSynced"))
    && SameCondition(before, after, "ConfigWarning")
  }

  /** What the conditions tell about the config, for an apply call made or left out. */
  ghost predicate ConfigTold(before: Conditions, after: Conditions, applied: bool) {
    if applied then
      && Has(after, "ConfigSynced", CondTrue, "Synced")
      && (Has(after, "ConfigWarning", CondTrue, "HasWarnings") || Has(after, "ConfigWarning", CondFalse, "NoWarnings"))
    else
      SameCondition(before, after, "ConfigSynced") && SameCondition(before, after, "ConfigWarning")
  }

  /** What the draft of a running reconcile tells. */
  ghost predicate ReconTold(hash: HashFn, h: seq<PipelineVersion>, c: Recon) {
    && c.at < |h|
    && var o := h[c.at];
    && (!PastApply(c.pc) ==> !c.applied)
    && (!PastApply(c.pc) && !c.pc.Reporting? ==> c.draft == o.status)
    && (c.pc.Reporting? ==> c.draft == o.status.(conds := c.draft.conds) && Trouble(o.status.conds, c.draft.conds))
    && (PastApply(c.pc) ==>
          && (c.applied <==> Wants(hash, o.status, c.desired))
          && ConfigTold(o.status.conds, c.draft.conds, c.applied)
          && c.draft.hash == hash(c.desired)
          && c.draft.paused == (if c.pauseOk then o.spec.paused else o.status.paused)
          && c.draft.exposed == (if c.exposeOk then o.spec.exposed else o.status.exposed))
    && (c.pc.Writing? ==> Has(c.draft.conds, "Ready", CondTrue, "Ready") && c.draft.observed == o.generation)
    && (c.pauseOk ==> c.pc.Exposing? || c.pc.Fetching? || c.pc.Writing?)
    && (c.exposeOk ==> c.pc.Fetching? || c.pc.Writing?)
  }

  ghost predicate Told(hash: HashFn, s: State) {
    s.run.Some? ==> ReconTold(hash, s.history, s.run.value)
  }

  lemma StaysTold(hash: HashFn, h: seq<PipelineVersion>, h': seq<PipelineVersion>, c: Recon)
    requires ReconTold(hash, h, c) && h <= h'
    ensures ReconTold(hash, h', c)
  {}

  lemma ReadTold(hash: HashFn, s: State, version: nat)
    requires Told(hash, s) && Enabled(s, Read(version))
    ensures Told(hash, DoRead(s, version))
  {}

  lemma FinalizerTold(hash: HashFn, s: State, fate: Fate)
    requires Told(hash, s) && Enabled(s, AddFinalizer(fate))
    ensures Told(hash, DoAddFinalizer(s, fate))
  {}

  lemma ResolveTold(hash: HashFn, s: State, ok: bool, walk: Walk)
    requires Told(hash, s) && At(s, PC.Resolving)
    ensures Told(hash, DoResolve(s, ok, walk))
  {}

  lemma LoadTold(hash: HashFn, s: State, unreadable: bool)
    requires Told(hash, s) && At(s, Loading)
    ensures Told(hash, DoLoad(s, unreadable))
  {}

  lemma ApplyTold(hash: HashFn, s: State, reply: ApplyReply)
    requires Told(hash, s) && At(s, Applying)
    ensures Told(hash, DoApply(hash, s, reply))
  {
    var c := s.run.value;
    ConfigIsTold(c.draft, hash(c.desired), reply.ApplyOk? && reply.warnings);
    assert NeedsApply(hash, c.draft, c.desired) <==> Wants(hash, s.history[c.at].status, c.desired);
  }

  lemma ConfigIsTold(st: PipelineStatus, newHash: string, warnings: bool)
    ensures var st' := StatusApplied(st, newHash, warnings);
            ConfigTold(st.conds, st'.conds, true) && st' == st.(hash := newHash, conds := st'.conds)
    ensures var st' := StatusApplyFailed(st);
            Trouble(st.conds, st'.conds) && st' == st.(conds := st'.conds)
  {}

  lemma FlagsTold(hash: HashFn, s: State, a: Action)
    requires Told(hash, s) && Enabled(s, a) && (a.Pause? || a.Expose?)
    ensures Told(hash, Do(hash, s, a))
  {}

  lemma FetchTold(hash: HashFn, s: State, ok: bool)
    requires Told(hash, s) && At(s, Fetching)
    ensures Told(hash, DoFetch(s, ok))
  {}

  lemma EndTold(hash: HashFn, s: State, a: Action)
    requires Told(hash, s) && Enabled(s, a)
    requires a.Write? || a.Report? || a.RemoveFinalizer? || a.Crash? || a.Delete?
    ensures Told(hash, Do(hash, s, a))
  {
    if a.Delete? { DeleteTold(hash, s, a.outcome); } else { assert Do(hash, s, a).run.None?; }
  }

  lemma DeleteTold(hash: HashFn, s: State, outcome: DeleteOutcome)
    requires Told(hash, s) && At(s, Deleting)
    ensures Told(hash, DoDelete(s, outcome))
  {}

  lemma OutsideTold(hash: HashFn, s: State, a: Action)
    requires Told(hash, s) && Enabled(s, a)
    requires a.Edit? || a.EditMaps? || a.MarkDeleting? || a.Vanish?
    ensures Told(hash, Do(hash, s, a))
  {
    if s.run.Some? { StaysTold(hash, s.history, Do(hash, s, a).history, s.run.value); }
  }

  lemma StepTold(hash: HashFn, s: State, a: Action)
    requires Told(hash, s) && Enabled(s, a)
    ensures Told(hash, Do(hash, s, a))
  {
    match a
    case Read(version) => ReadTold(hash, s, version);
    case AddFinalizer(fate) => FinalizerTold(hash, s, fate);
    case Resolve(ok, walk) => ResolveTold(hash, s, ok, walk);
    case Load(unreadable) => LoadTold(hash, s, unreadable);
    case Apply(reply) => ApplyTold(hash, s, reply);
    case Pause(_) => FlagsTold(hash, s, a);
    case Expose(_) => FlagsTold(hash, s, a);
    case Fetch(ok) => FetchTold(hash, s, ok);
    case Edit(_) => OutsideTold(hash, s, a);
    case EditMaps(_) => OutsideTold(hash, s, a);
    case MarkDeleting => OutsideTold(hash, s, a);
    case Vanish => OutsideTold(hash, s, a);
    case _ => EndTold(hash, s, a);
  }

  lemma {:induction false} RunTold(hash: HashFn, states: seq<State>, actions: seq<Action>, n: nat)
    requires IsRun(hash, states, actions) && n <= |actions|
    ensures Told(hash, states[n])
  {
    if n > 0 {
      RunTold(hash, states, actions, n - 1);
      StepTold(hash, states[n - 1], actions[n - 1]);
    }
  }

  // ----- When the config is applied -----

  /** Over every run: the reconcile makes the apply call exactly if the version it read has no ID or another hash. A
      call that succeeds leaves the wanted config and goes on; one that fails leaves the server alone and is
      reported; and without the call the server is left alone and the reconcile goes on. */
  lemma AppliesIffInRuns(hash: HashFn, states: seq<State>, actions: seq<Action>, n: nat)
    requires IsRun(hash, states, actions) && n < |actions| && actions[n].Apply?
    ensures states[n].run.Some? && states[n + 1].run.Some? && states[n].run.value.at < |states[n].history|
    ensures var s, s', c, c' := states[n], states[n + 1], states[n].run.value, states[n + 1].run.value;
            var wants := Wants(hash, s.history[c.at].status, c.desired);
            && (wants && actions[n].reply.ApplyOk? ==>
                  c'.applied && c'.pc.Pausing? && s'.server.Some? && s'.server.value.config == c.desired)
            && (wants && actions[n].reply.ApplyError? ==> c'.pc.Reporting? && s'.server == s.server)
            && (!wants ==> c'.pc.Pausing? && s'.server == s.server)
  {
    RunTold(hash, states, actions, n);
  }

  /** Over every run, also those that lose status writes: when a pass gets its status stored, the server holds the
      config it loaded if and only if the stored version it followed had no ID or another hash, or its hash was that
      of the server. In particular, without an ID the config is always right. */
  lemma LandedIsRightIff(hash: HashFn, states: seq<State>, actions: seq<Action>, n: nat)
    requires GoodHash(hash) && IsRun(hash, states, actions) && n < |actions|
    requires actions[n].Write? && !actions[n].fate.Rejected?
    ensures states[n].run.Some? && |states[n].history| > 0
    ensures var s, s', c, st := states[n], states[n + 1], states[n].run.value, Last(states[n].history).status;
            s'.server.Some? && s'.server.value.config == c.desired <==>
              st.id == 0 || st.hash != hash(c.desired) || (s.server.Some? && hash(s.server.value.config) == st.hash)
  {
    RunTold(hash, states, actions, n);
    RunBase(hash, states, actions, n);
  }

  // ----- What the stored status tells -----

  /** Over every run: a pass that stores its status leaves Ready True, the generation it read, the hash of the config
      it loaded, the flags its calls have set, and the conditions of an apply call if it made one. */
  lemma StoredPassTells(hash: HashFn, states: seq<State>, actions: seq<Action>, n: nat)
    requires IsRun(hash, states, actions) && n < |actions| && actions[n].Write? && !actions[n].fate.Rejected?
    ensures states[n].run.Some? && |states[n].history| > 0 && |states[n + 1].history| > 0
    ensures var o, st, c := Last(states[n].history), Last(states[n + 1].history).status, states[n].run.value;
            && Has(st.conds, "Ready", CondTrue, "Ready") && st.observed == o.generation
            && st.hash == hash(c.desired)
            && ConfigTold(o.status.conds, st.conds, Wants(hash, o.status, c.desired))
            && st.paused == (if c.pauseOk then o.spec.paused else o.status.paused)
            && st.exposed == (if c.exposeOk then o.spec.exposed else o.status.exposed)
            && Last(states[n + 1].history) == o.(status := st)
  {
    RunTold(hash, states, actions, n);
  }

  /** The action finds that the Pipeline cannot be synced now, and why. */
  ghost predicate Causes(hash: HashFn, s: State, a: Action, reason: string) {
    && s.run.Some? && s.run.value.at < |s.history|
    && var o, c := s.history[s.run.value.at], s.run.value;
    || (a.Resolve? && reason == "TeamNotReady" && !a.walk.PipelineResolves(s.namespace, o.spec.teamRef))
    || (a.Load? && reason == "ConfigLoadFailed" && LoadConfig(o.spec.config, s.maps, a.unreadable).None?)
    || (a.Apply? && reason == "SetPipelineFailed" && a.reply.ApplyError? && Wants(hash, o.status, c.desired))
  }

  ghost predicate TellsWhy(hash: HashFn, s: State, a: Action, conds: Conditions) {
    "Ready" in conds && conds["Ready"].status == CondFalse && Causes(hash, s, a, conds["Ready"].reason)
  }

  ghost predicate IsReporting(s: State) {
    s.run.Some? && s.run.value.pc.Reporting?
  }

  lemma TroubleIsEntered(hash: HashFn, s: State, a: Action)
    requires Enabled(s, a) && Told(hash, s) && IsReporting(Do(hash, s, a))
    ensures TellsWhy(hash, s, a, Do(hash, s, a).run.value.draft.conds) || (!a.Read? && s.run == Do(hash, s, a).run)
  {
    if a.Apply? { FailedApply(hash, s, a.reply); } else if a.Write? || a.Report? || a.Fetch? || a.Pause? || a.Expose? {
      LaterEntersNothing(hash, s, a);
    }
  }

  lemma FailedApply(hash: HashFn, s: State, reply: ApplyReply)
    requires At(s, Applying) && Told(hash, s) && IsReporting(DoApply(hash, s, reply))
    ensures TellsWhy(hash, s, Apply(reply), DoApply(hash, s, reply).run.value.draft.conds)
  {}

  lemma LaterEntersNothing(hash: HashFn, s: State, a: Action)
    requires Enabled(s, a) && (a.Write? || a.Report? || a.Fetch? || a.Pause? || a.Expose?)
    ensures !IsReporting(Do(hash, s, a))
  {}

  lemma {:induction false} TroubleHasItsCause(hash: HashFn, states: seq<State>, actions: seq<Action>, n: nat) returns (k: nat)
    requires IsRun(hash, states, actions) && n <= |actions| && IsReporting(states[n])
    ensures k < n && TellsWhy(hash, states[k], actions[k], states[n].run.value.draft.conds)
    ensures forall m :: k < m < n ==> !actions[m].Read?
  {
    assert n > 0;
    RunTold(hash, states, actions, n - 1);
    TroubleIsEntered(hash, states[n - 1], actions[n - 1]);
    if TellsWhy(hash, states[n - 1], actions[n - 1], states[n].run.value.draft.conds) {
      k := n - 1;
    } else {
      k := TroubleHasItsCause(hash, states, actions, n - 1);
    }
  }

  /** Over every run: a stored report leaves Ready False, and its reason names what the same reconcile has met: a
      broken chain, a config that cannot be loaded, or a failed apply call, which alone says so of ConfigSynced. It
      changes nothing else. */
  lemma ReportTellsWhy(hash: HashFn, states: seq<State>, actions: seq<Action>, n: nat) returns (k: nat)
    requires IsRun(hash, states, actions) && n < |actions| && actions[n].Report? && !actions[n].fate.Rejected?
    ensures |states[n].history| > 0 && |states[n + 1].history| > 0
    ensures k < n && TellsWhy(hash, states[k], actions[k], Last(states[n + 1].history).status.conds)
    ensures forall m :: k < m < n ==> !actions[m].Read?
    ensures var o, o' := Last(states[n].history), Last(states[n + 1].history);
            && Trouble(o.status.conds, o'.status.conds)
            && o' == o.(status := o.status.(conds := o'.status.conds))
  {
    RunTold(hash, states, actions, n);
    k := TroubleHasItsCause(hash, states, actions, n);
  }

  // ----- Deletion passes -----

  /** Whatever became of the delete call, the reconcile goes on to remove the finalizer of the version it read; the
      call that takes effect empties the server, any other leaves it alone. */
  lemma DeleteGoesOn(hash: HashFn, states: seq<State>, actions: seq<Action>, n: nat)
    requires IsRun(hash, states, actions) && n < |actions| && actions[n].Delete?
    ensures states[n].run.Some? && states[n + 1].run.Some?
    ensures var s, s' := states[n], states[n + 1];
            && s'.run.value.pc.RemovingFinalizer? && s'.run.value.at == s.run.value.at && s'.history == s.history
            && s'.server == (if actions[n].outcome.DeleteDone? then None else s.server)
  {}

  /** Every run in which the object is marked deleted and carries the finalizer goes on with an undisturbed deletion
      pass, for each outcome of its call: unless the finalizer write is rejected, the finalizer is gone, the rest of
      the object is kept, and the object can leave. The server is empty exactly if it was before or the delete call
      took effect. */
  lemma DeletionReleases(hash: HashFn, states: seq<State>, actions: seq<Action>, outcome: DeleteOutcome, walk: Walk, fate: Fate)
      returns (states': seq<State>, actions': seq<Action>)
    requires IsRun(hash, states, actions) && |Last(states).history| > 0 && Last(states).run.None? && !Last(states).gone
    requires Last(Last(states).history).deleting && Last(Last(states).history).finalizer
    requires outcome.Unresolved? <==> !walk.PipelineResolves(Last(states).namespace, Last(Last(states).history).spec.teamRef)
    ensures IsRun(hash, states', actions')
    ensures actions' == actions + [Read(|Last(states).history| - 1), Delete(outcome, walk), RemoveFinalizer(fate)]
    ensures var s, s' := Last(states), Last(states');
            && |s'.history| > 0 && s'.run.None? && !s'.gone
            && (fate.Rejected? ==> s'.history == s.history)
            && (!fate.Rejected? ==>
                  && !Last(s'.history).finalizer && Last(s'.history).deleting
                  && Last(s'.history) == Last(s.history).(finalizer := false)
                  && Enabled(s', Vanish) && Do(hash, s', Vanish).gone)
            && (s'.server.None? <==> s.server.None? || outcome.DeleteDone?)
            && (!outcome.DeleteDone? ==> s'.server == s.server)
  {
    var s := Last(states);
    states', actions' := DeletionIsTried(hash, states, actions, outcome, walk);
    var s2 := Last(states');
    states', actions' := Extend(hash, states', actions', RemoveFinalizer(fate));
    FinalizerIsRemoved(hash, s2, fate);
  }

  lemma DeletionIsTried(hash: HashFn, states: seq<State>, actions: seq<Action>, outcome: DeleteOutcome, walk: Walk)
      returns (states': seq<State>, actions': seq<Action>)
    requires IsRun(hash, states, actions) && |Last(states).history| > 0 && Last(states).run.None? && !Last(states).gone
    requires Last(Last(states).history).deleting && Last(Last(states).history).finalizer
    requires outcome.Unresolved? <==> !walk.PipelineResolves(Last(states).namespace, Last(Last(states).history).spec.teamRef)
    ensures IsRun(hash, states', actions')
    ensures actions' == actions + [Read(|Last(states).history| - 1), Delete(outcome, walk)]
    ensures var s, s' := Last(states), Last(states');
            && At(s', RemovingFinalizer) && s'.run.value.at == |s.history| - 1 && s'.history == s.history && !s'.gone
            && s'.server == if outcome.DeleteDone? then None else s.server
  {
    states', actions' := Extend(hash, states, actions, Read(|Last(states).history| - 1));
    states', actions' := Extend(hash, states', actions', Delete(outcome, walk));
  }

  lemma FinalizerIsRemoved(hash: HashFn, s: State, fate: Fate)
    requires At(s, RemovingFinalizer) && Last(s.history).deleting
    ensures var s' := DoRemoveFinalizer(s, fate);
            && |s'.history| > 0 && s'.run.None? && s'.gone == s.gone && s'.server == s.server
            && (fate.Rejected? ==> s'.history == s.history)
            && (!fate.Rejected? ==>
                  && !Last(s'.history).finalizer && Last(s'.history).deleting
                  && Last(s'.history) == Last(s.history).(finalizer := false)
                  && Enabled(s', Vanish) && Do(hash, s', Vanish).gone)
  {}

  /** A living object without the finalizer gets it before anything else is done. */
  lemma FinalizerComesFirst(hash: HashFn, states: seq<State>, actions: seq<Action>, fate: Fate)
      returns (states': seq<State>, actions': seq<Action>)
    requires IsRun(hash, states, actions) && |Last(states).history| > 0 && Last(states).run.None? && !Last(states).gone
    requires !Last(Last(states).history).deleting && !Last(Last(states).history).finalizer
    ensures IsRun(hash, states', actions')
    ensures actions' == actions + [Read(|Last(states).history| - 1), AddFinalizer(fate)]
    ensures var s, s' := Last(states), Last(states');
            && |s'.history| > 0 && s'.server == s.server
            && (fate.Rejected? ==> s'.history == s.history)
            && (!fate.Rejected? ==> Last(s'.history) == Last(s.history).(finalizer := true) && Last(s'.history).finalizer)
            && (fate.Acked? <==> s'.run.Some?)
            && (fate.Acked? ==> s'.run.value.pc.Resolving? && s'.run.value.at == |s.history|)
  {
    var s := Last(states);
    states', actions' := Extend(hash, states, actions, Read(|s.history| - 1));
    states', actions' := Extend(hash, states', actions', AddFinalizer(fate));
  }

  /** Any run goes on with an undisturbed reconcile that meets trouble, and its report is stored. */
  lemma TroubleIsStored(hash: HashFn, states: seq<State>, actions: seq<Action>, a: Action, reason: string)
      returns (states': seq<State>, actions': seq<Action>)
    requires IsRun(hash, states, actions) && Enabled(Last(states), a) && Causes(hash, Last(states), a, reason)
    requires !Last(states).gone && IsCurrent(Last(states).history, Last(states).run.value.at)
    ensures IsRun(hash, states', actions') && actions' == actions + [a, Report(Acked)]
    ensures var s' := Last(states');
            && |s'.history| > 0 && s'.run.None? && s'.server == Last(states).server
            && Has(Last(s'.history).status.conds, "Ready", CondFalse, reason)
  {
    ghost var s := Last(states);
    RunTold(hash, states, actions, |actions|);
    states', actions' := Extend(hash, states, actions, a);
    TroubleIsReported(hash, s, a, reason);
    states', actions' := Extend(hash, states', actions', Report(Acked));
  }

  lemma TroubleIsReported(hash: HashFn, s: State, a: Action, reason: string)
    requires Enabled(s, a) && Causes(hash, s, a, reason) && Told(hash, s)
    ensures var s' := Do(hash, s, a);
            && s'.run.Some? && s'.run.value.pc.Reporting? && s'.run.value.at == s.run.value.at
            && Has(s'.run.value.draft.conds, "Ready", CondFalse, reason)
            && s'.history == s.history && s'.gone == s.gone && s'.server == s.server
  {
    if a.Apply? { ApplyIsReported(hash, s, a.reply); }
  }

  lemma ApplyIsReported(hash: HashFn, s: State, reply: ApplyReply)
    requires At(s, Applying) && Causes(hash, s, Apply(reply), "SetPipelineFailed") && Told(hash, s)
    ensures var s' := DoApply(hash, s, reply);
            && s'.run.Some? && s'.run.value.pc.Reporting? && s'.run.value.at == s.run.value.at
            && Has(s'.run.value.draft.conds, "Ready", CondFalse, "SetPipelineFailed")
            && s'.history == s.history && s'.gone == s.gone && s'.server == s.server
  {}
}
