/** What the stored status of a Resource tells about the reconcile that wrote it, over every run, and that every
    undisturbed reconcile gets to write it (internal/controller/resource_controller.go). */
module ResourceConditions {
  import opened ApiServer
  import opened ResourceCheck
  import opened Resolver

  /** A check is due: an interval is set, and no check is recorded or the interval has passed since. */
  ghost predicate IsDue(o: ResourceVersion, now: int) {
    && o.spec.checkInterval.Some?
    && (o.status.lastChecked.None? || now >= o.status.lastChecked.value + o.spec.checkInterval.value)
  }

  /** CheckHealthy as the check says; without a check it is Unknown before the first one and stays as it was after. */
  ghost predicate TellsCheck(before: ResourceStatus, after: ResourceStatus, tried: Option<bool>) {
    match tried
    case Some(true) => Has(after.conds, "CheckHealthy", CondTrue, "CheckSucceeded") && after.lastChecked.Some?
    case Some(false) => Has(after.conds, "CheckHealthy", CondFalse, "CheckFailed") && after.lastChecked == before.lastChecked
    case None =>
      && after.lastChecked == before.lastChecked
      && (if before.lastChecked.None? then Has(after.conds, "CheckHealthy", CondUnknown, "CheckPending")
          else SameCondition(before.conds, after.conds, "CheckHealthy"))
  }

  /** Ready is False because of the Pipeline or the rest of the chain, and nothing else has changed. */
  ghost predicate Trouble(before: ResourceStatus, after: ResourceStatus) {
    && (Has(after.conds, "Ready", CondFalse, "PipelineNotReady") || Has(after.conds, "Ready", CondFalse, "ChainNotReady"))
    && SameCondition(before.conds, after.conds, "CheckHealthy")
    && after == before.(conds := after.conds)
  }

  /** What the draft of a running reconcile tells. */
  ghost predicate ReconTold(h: seq<ResourceVersion>, c: Recon) {
    && c.at < |h| && !h[c.at].deleting
    && var o := h[c.at];
    && (c.pc.Resolving? || c.pc.Deciding? || c.pc.Checking? ==> c.draft == o.status && c.tried.None?)
    && (c.pc.Reporting? ==> Trouble(o.status, c.draft) && c.check.None?)
    && (c.pc.Stamping? ==> c.draft == o.status && c.tried == Some(true))
    && (c.pc.Fetching? || c.pc.Writing? ==> TellsCheck(o.status, c.draft, c.tried) && (c.check.Some? <==> c.tried == Some(true)))
    && (!c.pc.Fetching? && !c.pc.Writing? ==> c.check.None?)
    && (c.pc.Fetching? ==> c.draft.latestVersion == o.status.latestVersion)
    && (c.pc.Writing? ==>
          && c.draft.latestVersion == (if c.latest.Some? then c.latest.value else o.status.latestVersion)
          && Has(c.draft.conds, "Ready", CondTrue, "Ready") && c.draft.observed == o.generation)
  }

  ghost predicate Told(s: State, r: nat) {
    r in s.recs ==> ReconTold(s.history, s.recs[r])
  }

  lemma ResolveTold(s: State, r: nat, ok: bool, walk: Walk)
    requires Told(s, r) && At(s, r, PC.Resolving)
    ensures Told(DoResolve(s, r, ok, walk), r)
  {}

  lemma DecideTold(s: State, r: nat)
    requires Told(s, r) && At(s, r, Deciding)
    ensures Told(DoDecide(s, r), r)
  {}

  lemma CheckTold(s: State, r: nat, ok: bool)
    requires Told(s, r) && At(s, r, Checking)
    ensures Told(DoCall(s, r, ok), r)
  {}

  lemma StampTold(s: State, r: nat)
    requires Told(s, r) && At(s, r, Stamping)
    ensures Told(DoStamp(s, r), r)
  {}

  lemma FetchTold(s: State, r: nat, found: Option<map<string, string>>)
    requires Told(s, r) && At(s, r, Fetching)
    ensures Told(DoFetch(s, r, found), r)
  {}

  /** A step of another reconcile, a read, an end, an edit or time passing. */
  lemma OtherTold(s: State, a: Action, r: nat)
    requires Told(s, r) && Enabled(s, a)
    requires a.Tick? || a.Read? || a.Write? || a.Edit? || a.r != r
    ensures Told(Do(s, a), r)
  {
    StepKeepsHistory(s, a);
  }

  lemma StepTold(s: State, a: Action, r: nat)
    requires Told(s, r) && Enabled(s, a)
    ensures Told(Do(s, a), r)
  {
    if a.Tick? || a.Read? || a.Write? || a.Edit? || a.r != r {
      OtherTold(s, a, r);
    } else {
      match a
      case Resolve(_, ok, walk) => ResolveTold(s, r, ok, walk);
      case Decide(_) => DecideTold(s, r);
      case CallCheck(_, ok) => CheckTold(s, r, ok);
      case Stamp(_) => StampTold(s, r);
      case FetchLatest(_, found) => FetchTold(s, r, found);
    }
  }

  lemma {:induction false} RunTold(states: seq<State>, actions: seq<Action>, n: nat, r: nat)
    requires IsRun(states, actions) && n <= |actions|
    ensures Told(states[n], r)
  {
    if n > 0 {
      RunTold(states, actions, n - 1, r);
      StepTold(states[n - 1], actions[n - 1], r);
    }
  }

  /** Over every run: no version that is marked deleted is acted on. */
  lemma DeletedIsLeftAlone(states: seq<State>, actions: seq<Action>, n: nat, r: nat)
    requires IsRun(states, actions) && n < |states| && r in states[n].recs
    ensures states[n].recs[r].at < |states[n].history| && !states[n].history[states[n].recs[r].at].deleting
  {
    RunTold(states, actions, n, r);
  }

  lemma DraftLands(s: State, a: Action)
    requires Enabled(s, a) && a.Write? && !a.fate.Rejected?
    ensures a.r in s.recs && IsCurrent(s.history, s.recs[a.r].at)
    ensures |Do(s, a).history| > 0 && Last(Do(s, a).history) == Last(s.history).(status := Stored(s.recs[a.r].draft))
  {}

  /** Over every run: a reconcile goes on to call the check exactly if one is due for the version it read. */
  lemma ChecksIff(states: seq<State>, actions: seq<Action>, n: nat)
    requires IsRun(states, actions) && n < |actions| && actions[n].Decide?
    ensures var s, s', r := states[n], states[n + 1], actions[n].r;
            && r in s.recs && s.recs[r].at < |s.history| && r in s'.recs
            && (s'.recs[r].pc.Checking? <==> IsDue(s.history[s.recs[r].at], s.now))
            && (!s'.recs[r].pc.Checking? ==> s'.recs[r].pc.Fetching?)
  {}

  /** Over every run: a reconcile past the resolver that stores its status leaves Ready True, the generation it read,
      CheckHealthy as its check says, and the latest version it was given, if any. One that reports changes Ready only. */
  lemma StoredResourceTells(states: seq<State>, actions: seq<Action>, n: nat)
    requires IsRun(states, actions) && n < |actions| && actions[n].Write? && !actions[n].fate.Rejected?
    ensures actions[n].r in states[n].recs && |states[n].history| > 0 && |states[n + 1].history| > 0
    ensures var o, o', c := Last(states[n].history), Last(states[n + 1].history), states[n].recs[actions[n].r];
            && o' == o.(status := o'.status)
            && (c.pc.Writing? ==>
                  && Has(o'.status.conds, "Ready", CondTrue, "Ready") && o'.status.observed == o.generation
                  && TellsCheck(Stored(o.status), o'.status, c.tried)
                  && o'.status.latestVersion == (if c.latest.Some? then c.latest.value else o.status.latestVersion))
            && (!c.pc.Writing? ==> Trouble(Stored(o.status), o'.status))
  {
    RunTold(states, actions, n, actions[n].r);
    WriteTells(states[n], actions[n]);
  }

  lemma WriteTells(s: State, a: Action)
    requires Enabled(s, a) && a.Write? && !a.fate.Rejected? && Told(s, a.r)
    ensures a.r in s.recs && |s.history| > 0 && |Do(s, a).history| > 0 && a.r !in Do(s, a).recs
    ensures var o, o', c := Last(s.history), Last(Do(s, a).history), s.recs[a.r];
            && o' == o.(status := o'.status)
            && (c.pc.Writing? ==>
                  && Has(o'.status.conds, "Ready", CondTrue, "Ready") && o'.status.observed == o.generation
                  && TellsCheck(Stored(o.status), o'.status, c.tried)
                  && o'.status.latestVersion == (if c.latest.Some? then c.latest.value else o.status.latestVersion))
            && (!c.pc.Writing? ==> Trouble(Stored(o.status), o'.status))
  {
    DraftLands(s, a);
  }

  // ----- Broken chains -----

  /** Why the reconcile does not get to its calls. */
  ghost predicate Causes(s: State, a: Action, reason: string) {
    && a.Resolve? && a.r in s.recs && s.recs[a.r].at < |s.history|
    && var ref := s.history[s.recs[a.r].at].spec.pipelineRef;
    || (reason == "PipelineNotReady" && JobBreaks(a.walk, s.namespace, ref, PipelineNotReady))
    || (reason == "ChainNotReady"
        && exists e: ResolveError :: !e.PipelineMissing? && !e.PipelineNotReady? && JobBreaks(a.walk, s.namespace, ref, e))
  }

  ghost predicate TellsWhy(s: State, a: Action, conds: Conditions) {
    "Ready" in conds && conds["Ready"].status == CondFalse && Causes(s, a, conds["Ready"].reason)
  }

  lemma TroubleAtGate(s: State, r: nat, ok: bool, walk: Walk)
    requires Enabled(s, Resolve(r, ok, walk)) && Told(s, r)
    ensures var s' := DoResolve(s, r, ok, walk);
            r in s'.recs && s'.recs[r].pc.Reporting? ==> TellsWhy(s, Resolve(r, ok, walk), s'.recs[r].draft.conds)
  {
    FailsIffBroken(walk, s.namespace, s.history[s.recs[r].at].spec.pipelineRef);
  }

  lemma TroubleIsEntered(s: State, a: Action, r: nat)
    requires Enabled(s, a) && Told(s, r) && r in Do(s, a).recs && Do(s, a).recs[r].pc.Reporting?
    ensures (a.Resolve? && a.r == r && TellsWhy(s, a, Do(s, a).recs[r].draft.conds)) || (r in s.recs && Do(s, a).recs[r] == s.recs[r])
  {
    if a.Resolve? && a.r == r { TroubleAtGate(s, r, a.ok, a.walk); }
  }

  lemma TroubleBefore(states: seq<State>, actions: seq<Action>, n: nat, r: nat)
    requires IsRun(states, actions) && n < |actions| && r in states[n + 1].recs && states[n + 1].recs[r].pc.Reporting?
    ensures (actions[n].Resolve? && actions[n].r == r && TellsWhy(states[n], actions[n], states[n + 1].recs[r].draft.conds)) ||
            (!(actions[n].Read? && actions[n].r == r) && r in states[n].recs && states[n + 1].recs[r] == states[n].recs[r])
  {
    RunTold(states, actions, n, r);
    TroubleIsEntered(states[n], actions[n], r);
  }

  lemma {:induction false} TroubleHasItsCause(states: seq<State>, actions: seq<Action>, n: nat, r: nat) returns (k: nat)
    requires IsRun(states, actions) && n <= |actions| && r in states[n].recs && states[n].recs[r].pc.Reporting?
    ensures k < n && actions[k].Resolve? && actions[k].r == r
    ensures TellsWhy(states[k], actions[k], states[n].recs[r].draft.conds)
    ensures forall m :: k < m < n ==> !(actions[m].Read? && actions[m].r == r)
  {
    assert n > 0;
    TroubleBefore(states, actions, n - 1, r);
    if actions[n - 1].Resolve? && actions[n - 1].r == r && TellsWhy(states[n - 1], actions[n - 1], states[n].recs[r].draft.conds) {
      k := n - 1;
    } else {
      k := TroubleHasItsCause(states, actions, n - 1, r);
    }
  }

  /** Over every run: the reason of a stored report names the link that the same reconcile has found broken: the
      Pipeline, or one behind it. */
  lemma ReportTellsWhy(states: seq<State>, actions: seq<Action>, n: nat) returns (k: nat)
    requires IsRun(states, actions) && n < |actions| && actions[n].Write? && !actions[n].fate.Rejected?
    requires At(states[n], actions[n].r, Reporting)
    ensures |states[n + 1].history| > 0
    ensures k < n && actions[k].Resolve? && actions[k].r == actions[n].r
            && TellsWhy(states[k], actions[k], Last(states[n + 1].history).status.conds)
    ensures forall m :: k < m < n ==> !(actions[m].Read? && actions[m].r == actions[n].r)
  {
    DraftLands(states[n], actions[n]);
    k := TroubleHasItsCause(states, actions, n, actions[n].r);
  }

  // ----- Undisturbed reconciles -----

  /** Nothing of reconcile `r` is left, the Resource lives, and its chain is ready. */
  ghost predicate CanBegin(s: State, r: nat, walk: Walk) {
    && |s.history| > 0 && r !in s.recs && !Last(s.history).deleting
    && walk.JobResolves(s.namespace, Last(s.history).spec.pipelineRef)
  }

  lemma DecisionIsReached(states: seq<State>, actions: seq<Action>, r: nat, walk: Walk)
      returns (states': seq<State>, actions': seq<Action>)
    requires IsRun(states, actions) && CanBegin(Last(states), r, walk)
    ensures IsRun(states', actions')
    ensures actions' == actions + [Read(r, |Last(states).history| - 1), Resolve(r, true, walk), Decide(r)]
    ensures var s, s' := Last(states), Last(states');
            && At(s', r, if IsDue(Last(s.history), s.now) then Checking else Fetching) && s'.recs[r].at == |s.history| - 1
            && s'.recs[r].tried.None? && s'.history == s.history
  {
    states', actions' := Extend(states, actions, Read(r, |Last(states).history| - 1));
    states', actions' := Extend(states', actions', Resolve(r, true, walk));
    states', actions' := Extend(states', actions', Decide(r));
  }

  /** A successful check is stamped, a failed one is passed over. */
  function CheckActions(r: nat, ok: bool): seq<Action> {
    if ok then [CallCheck(r, ok), Stamp(r)] else [CallCheck(r, ok)]
  }

  lemma CheckIsTried(states: seq<State>, actions: seq<Action>, r: nat, ok: bool)
      returns (states': seq<State>, actions': seq<Action>)
    requires IsRun(states, actions) && At(Last(states), r, Checking)
    ensures IsRun(states', actions') && actions' == actions + CheckActions(r, ok)
    ensures var s, s' := Last(states), Last(states');
            At(s', r, Fetching) && s'.recs[r].at == s.recs[r].at && s'.recs[r].tried == Some(ok) && s'.history == s.history
  {
    states', actions' := Extend(states, actions, CallCheck(r, ok));
    if ok { states', actions' := Extend(states', actions', Stamp(r)); }
  }

  lemma FetchIsStored(states: seq<State>, actions: seq<Action>, r: nat, found: Option<map<string, string>>)
      returns (states': seq<State>, actions': seq<Action>)
    requires IsRun(states, actions) && At(Last(states), r, Fetching) && IsCurrent(Last(states).history, Last(states).recs[r].at)
    ensures IsRun(states', actions') && actions' == actions + [FetchLatest(r, found), Write(r, Acked)]
    ensures var s, s' := Last(states), Last(states');
            && |s'.history| > 0 && r !in s'.recs
            && var o, o' := Last(s.history), Last(s'.history);
            && o' == o.(status := o'.status)
            && Has(o'.status.conds, "Ready", CondTrue, "Ready") && o'.status.observed == o.generation
            && TellsCheck(Stored(o.status), o'.status, s.recs[r].tried)
            && o'.status.latestVersion == if found.Some? then found.value else o.status.latestVersion
  {
    states', actions' := Extend(states, actions, FetchLatest(r, found));
    RunTold(states', actions', |actions'|, r);
    WriteTells(Last(states'), Write(r, Acked));
    states', actions' := Extend(states', actions', Write(r, Acked));
  }

  /** Every run goes on with an undisturbed reconcile to the end, whether its check and its fetch succeed or not: the
      check is made exactly if it is due, and the status is stored and tells the replies. */
  lemma UndisturbedIsStored(states: seq<State>, actions: seq<Action>, r: nat, walk: Walk, ok: bool,
                            found: Option<map<string, string>>)
      returns (states': seq<State>, actions': seq<Action>)
    requires IsRun(states, actions) && CanBegin(Last(states), r, walk)
    ensures IsRun(states', actions')
    ensures actions' == actions + [Read(r, |Last(states).history| - 1), Resolve(r, true, walk), Decide(r)]
                        + (if IsDue(Last(Last(states).history), Last(states).now) then CheckActions(r, ok) else [])
                        + [FetchLatest(r, found), Write(r, Acked)]
    ensures var s, s' := Last(states), Last(states');
            && |s'.history| > 0 && r !in s'.recs
            && var o, o' := Last(s.history), Last(s'.history);
            && o' == o.(status := o'.status)
            && Has(o'.status.conds, "Ready", CondTrue, "Ready") && o'.status.observed == o.generation
            && TellsCheck(Stored(o.status), o'.status, if IsDue(o, s.now) then Some(ok) else None)
            && o'.status.latestVersion == if found.Some? then found.value else o.status.latestVersion
  {
    states', actions' := DecisionIsReached(states, actions, r, walk);
    if IsDue(Last(Last(states).history), Last(states).now) {
      states', actions' := CheckIsTried(states', actions', r, ok);
    }
    states', actions' := FetchIsStored(states', actions', r, found);
  }

  /** Every run goes on with a reconcile that meets a broken chain: with a missing Pipeline it ends without a trace;
      otherwise its report is stored, with the reason. */
  lemma TroubleIsStored(states: seq<State>, actions: seq<Action>, r: nat, walk: Walk)
      returns (states': seq<State>, actions': seq<Action>)
    requires IsRun(states, actions) && |Last(states).history| > 0 && r !in Last(states).recs
    requires !Last(Last(states).history).deleting
    requires !walk.JobResolves(Last(states).namespace, Last(Last(states).history).spec.pipelineRef)
    ensures IsRun(states', actions')
    ensures var s, s' := Last(states), Last(states');
            var missing := JobBreaks(walk, s.namespace, Last(s.history).spec.pipelineRef, PipelineMissing);
            && |s'.history| > 0 && r !in s'.recs && s'.landed == s.landed
            && actions' == actions + [Read(r, |s.history| - 1), Resolve(r, false, walk)] + (if missing then [] else [Write(r, Acked)])
            && (missing ==> s'.history == s.history)
            && (!missing ==> Trouble(Stored(Last(s.history).status), Last(s'.history).status))
  {
    states', actions' := GateIsClosed(states, actions, r, walk);
    if !JobBreaks(walk, Last(states).namespace, Last(Last(states).history).spec.pipelineRef, PipelineMissing) {
      RunTold(states', actions', |actions'|, r);
      WriteTells(Last(states'), Write(r, Acked));
      states', actions' := Extend(states', actions', Write(r, Acked));
    }
  }

  lemma GateIsClosed(states: seq<State>, actions: seq<Action>, r: nat, walk: Walk)
      returns (states': seq<State>, actions': seq<Action>)
    requires IsRun(states, actions) && |Last(states).history| > 0 && r !in Last(states).recs
    requires !Last(Last(states).history).deleting
    requires !walk.JobResolves(Last(states).namespace, Last(Last(states).history).spec.pipelineRef)
    ensures IsRun(states', actions')
    ensures actions' == actions + [Read(r, |Last(states).history| - 1), Resolve(r, false, walk)]
    ensures var s, s' := Last(states), Last(states');
            && s'.history == s.history && s'.landed == s.landed
            && (if JobBreaks(walk, s.namespace, Last(s.history).spec.pipelineRef, PipelineMissing) then r !in s'.recs
                else At(s', r, Reporting) && s'.recs[r].at == |s.history| - 1 && s'.recs[r].check.None?)
  {
    states', actions' := Extend(states, actions, Read(r, |Last(states).history| - 1));
    states', actions' := Extend(states', actions', Resolve(r, false, walk));
  }
}
