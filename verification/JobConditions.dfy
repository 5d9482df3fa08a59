/** What the stored status of a Job tells about the reconcile that wrote it, over every run, and that every
    undisturbed reconcile gets to write it (internal/controller/job_controller.go). */
module JobConditions {
  import opened ApiServer
  import opened JobTrigger
  import opened Resolver

  /** LastBuildSucceeded and the last build, as the job info says; without a finished build only the condition moves. */
  ghost predicate TellsLastBuild(before: JobStatus, after: JobStatus, info: FetchReply) {
    match info
    case FetchFailed =>
      SameLastBuild(before, after) && Has(after.conds, "LastBuildSucceeded", CondUnknown, "FetchFailed")
    case NoBuild =>
      SameLastBuild(before, after) && Has(after.conds, "LastBuildSucceeded", CondUnknown, "NoBuild")
    case Finished(b) =>
      && after.lastBuildID == b.id && after.lastBuildStatus == b.status
      && (b.endTime > 0 ==> after.lastBuildTime == Some(b.endTime))
      && (b.endTime <= 0 ==> after.lastBuildTime == before.lastBuildTime)
      && (b.status == "succeeded" <==> Has(after.conds, "LastBuildSucceeded", CondTrue, "Succeeded"))
      && (b.status != "succeeded" <==> Has(after.conds, "LastBuildSucceeded", CondFalse, b.status))
  }

  ghost predicate SameLastBuild(before: JobStatus, after: JobStatus) {
    && after.lastBuildID == before.lastBuildID && after.lastBuildStatus == before.lastBuildStatus
    && after.lastBuildTime == before.lastBuildTime
  }

  /** Ready is False because of the chain, and nothing else has changed. */
  ghost predicate Trouble(before: JobStatus, after: JobStatus) {
    && Has(after.conds, "Ready", CondFalse, "PipelineNotReady")
    && SameCondition(before.conds, after.conds, "LastBuildSucceeded")
    && after == before.(conds := after.conds)
  }

  /** What the draft of a running reconcile tells. */
  ghost predicate ReconTold(h: seq<JobVersion>, c: Recon) {
    && c.at < |h| && !h[c.at].deleting
    && var o := h[c.at];
    && (c.pc.Resolving? || c.pc.Pausing? ==> c.draft == o.status)
    && (c.pc.Reporting? ==> Trouble(o.status, c.draft))
    && (c.pc.Triggering? || Decided(c.pc) ==> c.draft.paused == if c.pauseOk then o.spec.paused else o.status.paused)
    && (c.pc.Triggering? ==> c.draft == o.status.(paused := c.draft.paused))
    && (Decided(c.pc) ==> Has(c.draft.conds, "Ready", CondTrue, "Ready") && c.draft.observed == o.generation)
    && (c.pc.Fetching? ==>
          SameLastBuild(o.status, c.draft) && SameCondition(o.status.conds, c.draft.conds, "LastBuildSucceeded"))
    && (c.pc.Writing? ==> c.info.Some? && TellsLastBuild(o.status, c.draft, c.info.value))
  }

  ghost predicate Told(s: State, r: nat) {
    r in s.recs ==> ReconTold(s.history, s.recs[r])
  }

  lemma ResolveTold(s: State, r: nat, ok: bool, walk: Walk)
    requires Told(s, r) && At(s, r, PC.Resolving)
    ensures Told(DoResolve(s, r, ok, walk), r)
  {}

  lemma PauseTold(s: State, r: nat, ok: bool)
    requires Told(s, r) && At(s, r, Pausing)
    ensures Told(DoPause(s, r, ok), r)
  {}

  lemma TriggerTold(s: State, r: nat, outcome: CreateOutcome)
    requires Told(s, r) && At(s, r, Triggering)
    ensures Told(DoTrigger(s, r, outcome), r)
  {}

  lemma FetchTold(s: State, r: nat, reply: FetchReply)
    requires Told(s, r) && At(s, r, Fetching)
    ensures Told(DoFetch(s, r, reply), r)
  {
    assert LAST_SUCCEEDED != READY;
  }

  /** A step of another reconcile, a read, an end or an edit. */
  lemma OtherTold(s: State, a: Action, r: nat)
    requires Told(s, r) && Enabled(s, a)
    requires a.Read? || a.Write? || a.Report? || a.Die? || a.Edit? || a.r != r
    ensures Told(Do(s, a), r)
  {
    StepKeepsHistory(s, a, Do(s, a));
  }

  lemma StepTold(s: State, a: Action, r: nat)
    requires Told(s, r) && Enabled(s, a)
    ensures Told(Do(s, a), r)
  {
    if a.Read? || a.Write? || a.Report? || a.Die? || a.Edit? || a.r != r {
      OtherTold(s, a, r);
    } else {
      match a
      case Resolve(_, ok, walk) => ResolveTold(s, r, ok, walk);
      case Pause(_, ok) => PauseTold(s, r, ok);
      case Trigger(_, outcome) => TriggerTold(s, r, outcome);
      case Fetch(_, reply) => FetchTold(s, r, reply);
    }
  }

  lemma {:induction false} RunTold(states: seq<State>, actions: seq<Action>, n: nat, r: nat)
    requires IsRun(states, actions) && n <= |actions|
    ensures Told(states[n], r)
  {
    if n > 0 {
      RunTold(states, actions, n - 1, r);
      StepTold(states[n - 1], actions[n - 1], r);
    }
  }

  /** Over every run: no version that is marked deleted is acted on. */
  lemma DeletedIsLeftAlone(states: seq<State>, actions: seq<Action>, n: nat, r: nat)
    requires IsRun(states, actions) && n <= |actions| && r in states[n].recs
    ensures states[n].recs[r].at < |states[n].history| && !states[n].history[states[n].recs[r].at].deleting
  {
    RunTold(states, actions, n, r);
  }

  lemma DraftLands(s: State, a: Action)
    requires Enabled(s, a) && (a.Write? || a.Report?) && !a.fate.Rejected?
    ensures a.r in s.recs && IsCurrent(s.history, s.recs[a.r].at)
    ensures |Do(s, a).history| > 0 && Last(Do(s, a).history) == Last(s.history).(status := s.recs[a.r].draft)
  {}

  /** Over every run: a reconcile that stores its status leaves Ready True, the generation it read, the pause flag that
      its call has set, and the last build as the job info it got says. */
  lemma StoredJobTells(states: seq<State>, actions: seq<Action>, n: nat)
    requires IsRun(states, actions) && n < |actions| && actions[n].Write? && !actions[n].fate.Rejected?
    ensures actions[n].r in states[n].recs && |states[n].history| > 0 && |states[n + 1].history| > 0
    ensures var o, o', c := Last(states[n].history), Last(states[n + 1].history), states[n].recs[actions[n].r];
            && o' == o.(status := o'.status)
            && Has(o'.status.conds, "Ready", CondTrue, "Ready") && o'.status.observed == o.generation
            && o'.status.paused == (if c.pauseOk then o.spec.paused else o.status.paused)
            && c.info.Some? && TellsLastBuild(o.status, o'.status, c.info.value)
  {
    RunTold(states, actions, n, actions[n].r);
    WriteTells(states[n], actions[n]);
  }

  lemma WriteTells(s: State, a: Action)
    requires Enabled(s, a) && a.Write? && !a.fate.Rejected? && Told(s, a.r)
    ensures a.r in s.recs && |s.history| > 0 && |Do(s, a).history| > 0 && a.r !in Do(s, a).recs
    ensures var o, o', c := Last(s.history), Last(Do(s, a).history), s.recs[a.r];
            && o' == o.(status := o'.status)
            && Has(o'.status.conds, "Ready", CondTrue, "Ready") && o'.status.observed == o.generation
            && o'.status.paused == (if c.pauseOk then o.spec.paused else o.status.paused)
            && c.info.Some? && TellsLastBuild(o.status, o'.status, c.info.value)
  {
    DraftLands(s, a);
  }

  /** What a running reconcile remembers of its replies is what it was told: the last pause and fetch actions. */
  lemma RepliesAreKept(s: State, a: Action)
    requires Enabled(s, a) && (a.Pause? || a.Fetch?)
    ensures a.r in Do(s, a).recs
    ensures a.Pause? ==> Do(s, a).recs[a.r].pauseOk == a.ok && Do(s, a).recs[a.r].pc.Triggering?
    ensures a.Fetch? ==> Do(s, a).recs[a.r].info == Some(a.reply) && Do(s, a).recs[a.r].pc.Writing?
  {}

  /** Over every run: a stored report comes from a version whose chain some walk of the same reconcile found broken;
      Ready is False for that reason and nothing else has changed. */
  lemma ReportTellsWhy(states: seq<State>, actions: seq<Action>, n: nat) returns (k: nat)
    requires IsRun(states, actions) && n < |actions| && actions[n].Report? && !actions[n].fate.Rejected?
    ensures |states[n].history| > 0 && |states[n + 1].history| > 0
    ensures Trouble(Last(states[n].history).status, Last(states[n + 1].history).status)
    ensures k < n && actions[k].Resolve? && actions[k].r == actions[n].r
            && !actions[k].walk.JobResolves(states[k].namespace, Last(states[n].history).spec.pipelineRef)
    ensures forall m :: k < m < n ==> !(actions[m].Read? && actions[m].r == actions[n].r)
  {
    RunTold(states, actions, n, actions[n].r);
    DraftLands(states[n], actions[n]);
    k := ReportHasItsWalk(states, actions, n, actions[n].r, states[n].history[states[n].recs[actions[n].r].at].spec.pipelineRef);
  }

  lemma ReportEntered(s: State, a: Action, r: nat)
    requires Enabled(s, a) && r in Do(s, a).recs && Do(s, a).recs[r].pc.Reporting?
    ensures s.history <= Do(s, a).history && r in s.recs && s.recs[r].at == Do(s, a).recs[r].at
    ensures s.recs[r].pc.Reporting? ||
            (a.Resolve? && a.r == r && s.recs[r].at < |s.history|
             && !a.walk.JobResolves(s.namespace, s.history[s.recs[r].at].spec.pipelineRef))
  {
    StepKeepsHistory(s, a, Do(s, a));
  }

  /** Reconcile `r` is about to report, and the Job version that it read names `pipelineRef`. */
  ghost predicate Reports(s: State, r: nat, pipelineRef: string) {
    && r in s.recs && s.recs[r].pc.Reporting? && s.recs[r].at < |s.history|
    && s.history[s.recs[r].at].spec.pipelineRef == pipelineRef
  }

  ghost predicate FailsToResolve(s: State, a: Action, r: nat, pipelineRef: string) {
    a.Resolve? && a.r == r && !a.walk.JobResolves(s.namespace, pipelineRef)
  }

  lemma ReportBefore(states: seq<State>, actions: seq<Action>, n: nat, r: nat, pipelineRef: string)
    requires IsRun(states, actions) && n < |actions| && Reports(states[n + 1], r, pipelineRef)
    ensures FailsToResolve(states[n], actions[n], r, pipelineRef) ||
            (Reports(states[n], r, pipelineRef) && !(actions[n].Read? && actions[n].r == r))
  {
    ReportEntered(states[n], actions[n], r);
    RunTold(states, actions, n, r);
  }

  lemma {:induction false} ReportHasItsWalk(states: seq<State>, actions: seq<Action>, n: nat, r: nat, pipelineRef: string) returns (k: nat)
    requires IsRun(states, actions) && n <= |actions| && Reports(states[n], r, pipelineRef)
    ensures k < n && FailsToResolve(states[k], actions[k], r, pipelineRef)
    ensures forall m :: k < m < n ==> !(actions[m].Read? && actions[m].r == r)
  {
    assert n > 0;
    ReportBefore(states, actions, n - 1, r, pipelineRef);
    k := n - 1;
    if !FailsToResolve(states[k], actions[k], r, pipelineRef) { k := ReportHasItsWalk(states, actions, n - 1, r, pipelineRef); }
  }

  // ----- Undisturbed reconciles -----

  /** Nothing of reconcile `r` is left, and the chain of the living Job is ready. */
  ghost predicate CanBegin(s: State, r: nat, walk: Walk) {
    && |s.history| > 0 && r !in s.recs && !Last(s.history).deleting
    && walk.JobResolves(s.namespace, Last(s.history).spec.pipelineRef)
  }

  lemma TriggerIsReached(states: seq<State>, actions: seq<Action>, r: nat, walk: Walk, pauseOk: bool)
      returns (states': seq<State>, actions': seq<Action>)
    requires IsRun(states, actions) && CanBegin(Last(states), r, walk)
    ensures IsRun(states', actions')
    ensures actions' == actions + [Read(r, |Last(states).history| - 1), Resolve(r, true, walk), Pause(r, pauseOk)]
    ensures var s, s' := Last(states), Last(states');
            && At(s', r, Triggering) && s'.recs[r].at == |s.history| - 1 && s'.recs[r].pauseOk == pauseOk
            && s'.history == s.history && s'.builds == s.builds
  {
    states', actions' := Extend(states, actions, Read(r, |Last(states).history| - 1));
    states', actions' := Extend(states', actions', Resolve(r, true, walk));
    states', actions' := Extend(states', actions', Pause(r, pauseOk));
  }

  lemma WriteIsReached(states: seq<State>, actions: seq<Action>, r: nat, outcome: CreateOutcome, info: FetchReply)
      returns (states': seq<State>, actions': seq<Action>)
    requires IsRun(states, actions) && At(Last(states), r, Triggering) && IsCurrent(Last(states).history, Last(states).recs[r].at)
    ensures IsRun(states', actions') && actions' == actions + [Trigger(r, outcome), Fetch(r, info)]
    ensures var s, s' := Last(states), Last(states');
            && At(s', r, Writing) && s'.recs[r].at == s.recs[r].at && s'.recs[r].pauseOk == s.recs[r].pauseOk
            && s'.recs[r].info == Some(info) && s'.history == s.history
            && var o := Last(s.history);
            s'.builds == if o.spec.triggerBuild && o.status.observed != o.generation && !outcome.CreateFailed?
                         then s.builds + [o.generation] else s.builds
  {
    states', actions' := Extend(states, actions, Trigger(r, outcome));
    states', actions' := Extend(states', actions', Fetch(r, info));
  }

  /** Every run goes on with an undisturbed reconcile to the end, whether its pause call, its create call and its fetch
      succeed or not: a Build is created exactly if one is asked for and the generation was not observed, and the
      status is stored and tells the replies. */
  lemma UndisturbedIsStored(states: seq<State>, actions: seq<Action>, r: nat, walk: Walk, pauseOk: bool,
                            outcome: CreateOutcome, info: FetchReply)
      returns (states': seq<State>, actions': seq<Action>)
    requires IsRun(states, actions) && CanBegin(Last(states), r, walk)
    ensures IsRun(states', actions')
    ensures actions' == actions + [Read(r, |Last(states).history| - 1), Resolve(r, true, walk), Pause(r, pauseOk)]
                        + [Trigger(r, outcome), Fetch(r, info)] + [Write(r, Acked)]
    ensures var s, s' := Last(states), Last(states');
            && |s'.history| > 0 && r !in s'.recs
            && var o, o' := Last(s.history), Last(s'.history);
            && o' == o.(status := o'.status)
            && Has(o'.status.conds, "Ready", CondTrue, "Ready") && o'.status.observed == o.generation
            && o'.status.paused == (if pauseOk then o.spec.paused else o.status.paused)
            && TellsLastBuild(o.status, o'.status, info)
            && s'.builds == if o.spec.triggerBuild && o.status.observed != o.generation && !outcome.CreateFailed?
                            then s.builds + [o.generation] else s.builds
  {
    states', actions' := TriggerIsReached(states, actions, r, walk, pauseOk);
    states', actions' := WriteIsReached(states', actions', r, outcome, info);
    RunTold(states', actions', |actions'|, r);
    WriteTells(Last(states'), Write(r, Acked));
    states', actions' := Extend(states', actions', Write(r, Acked));
  }

  /** Every run goes on with a reconcile that meets a broken chain, and its report is stored. */
  lemma TroubleIsStored(states: seq<State>, actions: seq<Action>, r: nat, walk: Walk)
      returns (states': seq<State>, actions': seq<Action>)
    requires IsRun(states, actions) && |Last(states).history| > 0 && r !in Last(states).recs
    requires !Last(Last(states).history).deleting
    requires !walk.JobResolves(Last(states).namespace, Last(Last(states).history).spec.pipelineRef)
    ensures IsRun(states', actions')
    ensures actions' == actions + [Read(r, |Last(states).history| - 1), Resolve(r, false, walk), Report(r, Acked)]
    ensures var s, s' := Last(states), Last(states');
            && |s'.history| > 0 && r !in s'.recs && s'.builds == s.builds
            && Trouble(Last(s.history).status, Last(s'.history).status)
  {
    states', actions' := Extend(states, actions, Read(r, |Last(states).history| - 1));
    states', actions' := Extend(states', actions', Resolve(r, false, walk));
    states', actions' := Extend(states', actions', Report(r, Acked));
  }
}
