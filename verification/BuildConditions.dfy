/** What the stored conditions of a Build tell about the reconcile that wrote them, and that every undisturbed
    reconcile gets to write them (internal/controller/build_controller.go). */
module BuildConditions {
  import opened ApiServer
  import opened BuildStatuses
  import opened BuildProtocol
  import opened BuildInvariant
  import opened BuildCalls
  import opened BuildRetarget
  import opened BuildTheorems
  import opened Resolver

  // ----- A tracked build -----

  /** Over every run: a tracking reconcile that stores its status leaves Ready True and "Tracked", whatever the
      phase, Complete False and "InProgress" for a build that has not ended and True with the name of the end for
      one that has, and the generation it read as observed. */
  lemma TrackedIsStored(states: seq<State>, actions: seq<Action>, i: nat)
    requires IsRun(states, actions) && i < |actions| && actions[i].Write? && !actions[i].fate.Rejected?
    ensures |states[i].history| > 0 && |states[i + 1].history| > 0
    ensures var st := states[i + 1].Current().status;
            && Has(st.conds, "Ready", CondTrue, "Tracked")
            && (st.phase !in {Succeeded, Failed, Errored, Aborted} <==> Has(st.conds, "Complete", CondFalse, "InProgress"))
            && CompleteTells(st) && st.id != 0
            && st.observed == states[i].Current().generation == states[i + 1].Current().generation
  {
    RunInv(states, actions, i);
    DraftLands(states[i], actions[i], states[i + 1]);
    DraftTells(states[i], actions[i].r);
  }

  lemma DraftLands(s: State, a: Action, s': State)
    requires IsStep(s, a, s') && Lands(a)
    ensures At(s, a.r, Writing) && IsCurrent(s.history, s.recs[a.r].at)
    ensures |s'.history| > 0 && s'.Current() == s.Current().(status := s.recs[a.r].draft)
  {}

  lemma DraftTells(s: State, r: nat)
    requires Inv(s) && At(s, r, Writing) && IsCurrent(s.history, s.recs[r].at)
    ensures var st := s.recs[r].draft;
            && Has(st.conds, "Ready", CondTrue, "Tracked") && CompleteTells(st) && st.id != 0
            && st.observed == s.Current().generation
  {
    assert ReconOk(s.history, s.atc, s.recs[r]);
  }

  // ----- A build that cannot be tracked -----

  /** The action finds that the Build cannot be tracked now, and why. */
  ghost predicate Causes(s: State, a: Action, reason: string) {
    || (a.Read? && reason == "NoJobRef" && a.version < |s.history| && s.history[a.version].spec.jobRef.None?)
    || (a.Resolve? && reason == "ChainNotReady" && a.r in s.recs && s.recs[a.r].pc.Resolving?
        && !a.walk.JobResolves(s.namespace, s.recs[a.r].pc.job.pipelineRef))
    || (a.Create? && reason == "TriggerFailed" && !a.outcome.Made?)
  }

  ghost predicate TellsWhy(s: State, a: Action, conds: Conditions) {
    "Ready" in conds && conds["Ready"].status == CondFalse && Causes(s, a, conds["Ready"].reason)
  }

  lemma ReadTrouble(s: State, a: Action, s': State, r: nat)
    requires IsStep(s, a, s') && a.Read? && r in s'.recs && s'.recs[r].pc.Reporting?
    ensures (a.r == r && TellsWhy(s, a, s'.recs[r].draft.conds)) || (r in s.recs && s'.recs[r] == s.recs[r])
  {}

  lemma CallTrouble(s: State, a: Action, s': State, r: nat)
    requires IsStep(s, a, s') && (a.Resolve? || a.Create?) && r in s'.recs && s'.recs[r].pc.Reporting?
    ensures (a.r == r && TellsWhy(s, a, s'.recs[r].draft.conds)) || (r in s.recs && s'.recs[r] == s.recs[r])
  {
    if a.Create? { CreateTrouble(s, a.r, a.outcome, a.b, r); }
  }

  lemma CreateTrouble(s: State, q: nat, outcome: CreateOutcome, b: AtcBuild, r: nat)
    requires q in s.recs && s.recs[q].at < |s.history|
    requires var s' := DoCreate(s, q, outcome, b); r in s'.recs && s'.recs[r].pc.Reporting?
    ensures var s' := DoCreate(s, q, outcome, b);
            (q == r && TellsWhy(s, Create(q, outcome, b), s'.recs[r].draft.conds)) || (r in s.recs && s'.recs[r] == s.recs[r])
  {}

  /** A reconcile gets to its report through a cause only. */
  lemma TroubleIsEntered(s: State, a: Action, s': State, r: nat)
    requires IsStep(s, a, s') && r in s'.recs && s'.recs[r].pc.Reporting?
    ensures (!IsOutside(a) && a.r == r && TellsWhy(s, a, s'.recs[r].draft.conds)) ||
            (r in s.recs && s'.recs[r] == s.recs[r] && a != Begin(r))
  {
    if IsOutside(a) {
      OutsideStays(s, a, s', r);
    } else if Ends(a) {
      EndMove(s, a, s', r);
    } else if a.Read? {
      ReadTrouble(s, a, s', r);
    } else if a.FindJob? {
      FindMove(s, a, s', r);
    } else if a.Resolve? || a.Create? {
      CallTrouble(s, a, s', r);
    } else {
      CallMove(s, a, s', r);
    }
  }

  lemma {:induction false} TroubleHasItsCause(states: seq<State>, actions: seq<Action>, i: nat, r: nat) returns (k: nat)
    requires IsRun(states, actions) && i < |states| && r in states[i].recs && states[i].recs[r].pc.Reporting?
    ensures k < i && !IsOutside(actions[k]) && actions[k].r == r && NotBegun(actions, k, i, r)
    ensures TellsWhy(states[k], actions[k], states[i].recs[r].draft.conds)
  {
    assert i > 0;
    var s, a := states[i - 1], actions[i - 1];
    assert IsStep(s, a, states[i]);
    TroubleIsEntered(s, a, states[i], r);
    if !IsOutside(a) && a.r == r && TellsWhy(s, a, states[i].recs[r].draft.conds) {
      k := i - 1;
      assert NotBegun(actions, k, i, r);
    } else {
      k := TroubleHasItsCause(states, actions, i - 1, r);
      assert NotBegun(actions, k, i, r);
    }
  }

  /** Over every run: a stored report leaves Ready False, and its reason names what the same reconcile has met: a
      version without a Job reference, a broken chain, or a create call without a reply. It changes nothing else. */
  lemma ReportTellsWhy(states: seq<State>, actions: seq<Action>, i: nat) returns (k: nat)
    requires IsRun(states, actions) && i < |actions| && actions[i].Report? && !actions[i].fate.Rejected?
    ensures |states[i].history| > 0 && |states[i + 1].history| > 0
    ensures k < i && !IsOutside(actions[k]) && actions[k].r == actions[i].r && NotBegun(actions, k, i, actions[i].r)
    ensures TellsWhy(states[k], actions[k], states[i + 1].Current().status.conds)
    ensures OnlyReadyChanged(states[i].Current().status, states[i + 1].Current().status)
  {
    RunInv(states, actions, i);
    assert IsStep(states[i], actions[i], states[i + 1]);
    assert ReconOk(states[i].history, states[i].atc, states[i].recs[actions[i].r]);
    k := TroubleHasItsCause(states, actions, i, actions[i].r);
  }

  // ----- Undisturbed reconciles -----

  lemma LastIsWellFormed(states: seq<State>, actions: seq<Action>)
    requires IsRun(states, actions)
    ensures Last(states).WellFormed()
  {
    RunInv(states, actions, |actions|);
    InvIsWellFormed(Last(states));
  }

  /** Any run in which a reconcile of the current version meets trouble goes on with its report being stored; the
      reconcile is over, and comes back on a timer unless the Job reference is missing. */
  lemma TroubleIsStored(states: seq<State>, actions: seq<Action>, a: Action, reason: string)
      returns (states': seq<State>, actions': seq<Action>)
    requires IsRun(states, actions) && Last(states).WellFormed() && Enabled(Last(states), a) && !Last(states).gone
    requires Causes(Last(states), a, reason) && (a.Create? || a.Resolve? ==> IsCurrent(Last(states).history, Last(states).recs[a.r].at))
    requires a.Read? ==> IsCurrent(Last(states).history, a.version) && !Last(states).Current().deleting
                         && Last(states).Current().status.phase !in {Succeeded, Failed, Errored, Aborted}
    ensures IsRun(states', actions') && actions' == actions + [a, Report(a.r, Acked)]
    ensures var s, s' := Last(states), Last(states');
            && |s'.history| > 0 && Has(s'.Current().status.conds, "Ready", CondFalse, reason)
            && a.r !in s'.recs && s'.queued == s.queued && s'.timer == (s.timer || !a.Read?)
  {
    ghost var s := Last(states);
    states', actions' := Extend(states, actions, a);
    TroubleIsReported(s, a, Last(states'), reason);
    states', actions' := ReportExtends(states', actions', a.r);
  }

  lemma ReportExtends(states: seq<State>, actions: seq<Action>, r: nat) returns (states': seq<State>, actions': seq<Action>)
    requires IsRun(states, actions) && r in Last(states).recs && Last(states).recs[r].pc.Reporting?
    requires !Last(states).gone && IsCurrent(Last(states).history, Last(states).recs[r].at)
    ensures IsRun(states', actions') && actions' == actions + [Report(r, Acked)]
    ensures var s, s' := Last(states), Last(states');
            && |s'.history| > 0 && s'.Current().status == s.recs[r].draft
            && r !in s'.recs && s'.queued == s.queued && s'.timer == (s.timer || s.recs[r].pc.requeue)
  {
    LastIsWellFormed(states, actions);
    states', actions' := Extend(states, actions, Report(r, Acked));
    ReportLands(Last(states), r, Last(states'));
  }

  lemma ReportLands(s: State, r: nat, s': State)
    requires IsStep(s, Report(r, Acked), s')
    ensures r in s.recs && s.recs[r].pc.Reporting? && |s'.history| > 0 && s'.Current().status == s.recs[r].draft
    ensures r !in s'.recs && s'.queued == s.queued && s'.timer == (s.timer || s.recs[r].pc.requeue)
  {}

  lemma TroubleIsReported(s: State, a: Action, s': State, reason: string)
    requires IsStep(s, a, s') && Causes(s, a, reason) && |s.history| > 0
    requires a.Read? ==> !s.history[a.version].deleting
                         && s.history[a.version].status.phase !in {Succeeded, Failed, Errored, Aborted}
    ensures a.r in s.recs && a.r in s'.recs && s'.recs[a.r].pc == Reporting(!a.Read?)
    ensures s'.recs[a.r].at == if a.Read? then a.version else s.recs[a.r].at
    ensures Has(s'.recs[a.r].draft.conds, "Ready", CondFalse, reason)
    ensures s'.history == s.history && s'.gone == s.gone && s'.queued == s.queued && s'.timer == s.timer
  {}

  /** A request is queued for a living, unfinished Build with a Job, whose chain `walk` finds ready; nothing of
      reconcile `r` is left. */
  ghost predicate CanBegin(s: State, r: nat, job: Job, walk: Walk) {
    && s.WellFormed() && s.queued && !s.gone && r !in s.recs
    && !s.Current().deleting && s.Current().status.phase !in {Succeeded, Failed, Errored, Aborted}
    && s.Current().spec.jobRef == Some(job.name)
    && walk.JobResolves(s.namespace, job.pipelineRef)
  }

  /** The reconcile as it stands before its first call. */
  function AtFirstCall(s: State, job: Job, walk: Walk): Recon
    requires |s.history| > 0
  {
    Recon(if s.Current().status.id == 0 then Creating else Aborting, |s.history| - 1,
          walk.JobSite(s.namespace, job.pipelineRef), None, EMPTY_STATUS)
  }

  lemma JobIsLookedUp(states: seq<State>, actions: seq<Action>, r: nat, job: Job, walk: Walk)
      returns (states': seq<State>, actions': seq<Action>)
    requires IsRun(states, actions) && CanBegin(Last(states), r, job, walk)
    ensures IsRun(states', actions')
    ensures actions' == actions + [Begin(r), Read(r, |Last(states).history| - 1)]
    ensures var s := Last(states);
            Last(states') == s.(queued := false, recs := s.recs[r := Recon(FindingJob, |s.history| - 1, "", None, EMPTY_STATUS)])
  {
    var s := Last(states);
    states', actions' := Extend(states, actions, Begin(r));
    states', actions' := Extend(states', actions', Read(r, |s.history| - 1));
    assert Last(states').recs == s.recs[r := Recon(FindingJob, |s.history| - 1, "", None, EMPTY_STATUS)];
  }

  lemma FirstCallIsReached(states: seq<State>, actions: seq<Action>, r: nat, job: Job, walk: Walk)
      returns (states': seq<State>, actions': seq<Action>)
    requires IsRun(states, actions) && CanBegin(Last(states), r, job, walk)
    ensures IsRun(states', actions')
    ensures actions' == actions + [Begin(r), Read(r, |Last(states).history| - 1)] + [FindJob(r, JobFound(job))] + [Resolve(r, true, walk)]
    ensures Last(states') ==
            Last(states).(queued := false, recs := Last(states).recs[r := AtFirstCall(Last(states), job, walk)])
  {
    ghost var s := Last(states);
    states', actions' := JobIsLookedUp(states, actions, r, job, walk);
    states', actions' := JobIsHere(states', actions', r, job);
    assert Last(states').recs == s.recs[r := Recon(Resolving(job), |s.history| - 1, "", None, EMPTY_STATUS)];
    states', actions' := WalkIsTaken(states', actions', r, job, walk);
    assert Last(states').recs == s.recs[r := AtFirstCall(s, job, walk)];
  }

  lemma JobIsHere(states: seq<State>, actions: seq<Action>, r: nat, job: Job)
      returns (states': seq<State>, actions': seq<Action>)
    requires IsRun(states, actions) && At(Last(states), r, FindingJob) && Last(states).recs[r].at < |Last(states).history|
    requires Last(states).history[Last(states).recs[r].at].spec.jobRef == Some(job.name)
    ensures IsRun(states', actions') && actions' == actions + [FindJob(r, JobFound(job))]
    ensures Last(states') == Last(states).(recs := Last(states).recs[r := Last(states).recs[r].(pc := Resolving(job))])
  {
    LastIsWellFormed(states, actions);
    states', actions' := Extend(states, actions, FindJob(r, JobFound(job)));
  }

  lemma WalkIsTaken(states: seq<State>, actions: seq<Action>, r: nat, job: Job, walk: Walk)
      returns (states': seq<State>, actions': seq<Action>)
    requires IsRun(states, actions) && |Last(states).history| > 0
    requires r in Last(states).recs
             && Last(states).recs[r] == Recon(Resolving(job), |Last(states).history| - 1, "", None, EMPTY_STATUS)
    requires walk.JobResolves(Last(states).namespace, job.pipelineRef)
    ensures IsRun(states', actions') && actions' == actions + [Resolve(r, true, walk)]
    ensures Last(states') == Last(states).(recs := Last(states).recs[r := AtFirstCall(Last(states), job, walk)])
  {
    LastIsWellFormed(states, actions);
    states', actions' := Extend(states, actions, Resolve(r, true, walk));
  }

  /** The reconcile is about to make its abort call, if it has one to make. */
  ghost predicate AtAbort(s: State, r: nat) {
    At(s, r, Aborting) && !s.gone && IsCurrent(s.history, s.recs[r].at) && Working(s.history, s.recs[r]).id != 0
  }

  /** What the reconcile leaves if it goes on undisturbed from its abort call in `s`. */
  ghost predicate TrackedFrom(s: State, r: nat, found: bool, s': State)
    requires r in s.recs && s.recs[r].at < |s.history|
    requires found ==> Target(s.history, s.recs[r]) in s.atc.server
  {
    var w, ref := Working(s.history, s.recs[r]), Target(s.history, s.recs[r]);
    && |s'.history| > 0
    && var st := s'.Current().status;
    && st.id == ref.id && st.name == w.name && st.apiURL == w.apiURL && st.start == w.start
    && st.phase == (if found then s.atc.server[ref].phase else w.phase)
    && st.end == (if found && s.atc.server[ref].endTime > 0 then Some(s.atc.server[ref].endTime) else w.end)
    && st.createdBy == (if found && s.atc.server[ref].createdBy.Some? then s.atc.server[ref].createdBy.value else w.createdBy)
    && st.observed == s.history[s.recs[r].at].generation
    && Has(st.conds, "Ready", CondTrue, "Tracked") && CompleteTells(st)
    && (s.history[s.recs[r].at].spec.abort ==> ref in s'.atc.aborts)
    && s'.atc.home == HomeOf(s.atc, s.recs[r])
    && (r in s'.recs <==> st.phase !in {Succeeded, Failed, Errored, Aborted})
    && (r in s'.recs ==> s'.recs[r].pc.Spawning? && s'.recs[r].draft.id == ref.id)
  }

  lemma AbortIsCalled(states: seq<State>, actions: seq<Action>, r: nat) returns (states': seq<State>, actions': seq<Action>)
    requires IsRun(states, actions) && Last(states).WellFormed() && AtAbort(Last(states), r)
    ensures IsRun(states', actions') && actions' == actions + [Abort(r)] && Last(states').WellFormed()
    ensures Last(states') == DoAbort(Last(states), r)
  {
    states', actions' := Extend(states, actions, Abort(r));
    LastIsWellFormed(states', actions');
  }

  lemma StatusIsRefreshed(states: seq<State>, actions: seq<Action>, r: nat, found: bool)
      returns (states': seq<State>, actions': seq<Action>)
    requires IsRun(states, actions) && Last(states).WellFormed() && At(Last(states), r, Refreshing)
    requires found ==> Target(Last(states).history, Last(states).recs[r]) in Last(states).atc.server
    ensures IsRun(states', actions') && actions' == actions + [Refresh(r, found)] && Last(states').WellFormed()
    ensures Last(states') == DoRefresh(Last(states), r, found)
  {
    states', actions' := Extend(states, actions, Refresh(r, found));
    LastIsWellFormed(states', actions');
  }

  lemma StatusLandsAcked(states: seq<State>, actions: seq<Action>, r: nat) returns (states': seq<State>, actions': seq<Action>)
    requires IsRun(states, actions) && Last(states).WellFormed() && At(Last(states), r, Writing)
    requires !Last(states).gone && IsCurrent(Last(states).history, Last(states).recs[r].at)
    ensures IsRun(states', actions') && actions' == actions + [Write(r, Acked)]
    ensures Last(states') == DoWrite(Last(states), r, Acked)
  {
    states', actions' := Extend(states, actions, Write(r, Acked));
  }

  lemma DraftFrom(s: State, r: nat, found: bool, s2: State)
    requires AtAbort(s, r) && (found ==> Target(s.history, s.recs[r]) in s.atc.server)
    requires DoAbort(s, r).history == s.history && r in DoAbort(s, r).recs && DoAbort(s, r).recs[r] == s.recs[r].(pc := Refreshing)
    requires DoAbort(s, r).atc.server == s.atc.server && s2 == DoRefresh(DoAbort(s, r), r, found)
    ensures At(s2, r, Writing) && s2.recs[r].at == s.recs[r].at && s2.history == s.history && s2.gone == s.gone
    ensures HomeOf(s2.atc, s2.recs[r]) == HomeOf(s.atc, s.recs[r])
    ensures var w, ref, st := Working(s.history, s.recs[r]), Target(s.history, s.recs[r]), s2.recs[r].draft;
            && st.id == ref.id && st.name == w.name && st.apiURL == w.apiURL && st.start == w.start
            && st.phase == (if found then s.atc.server[ref].phase else w.phase)
            && st.end == (if found && s.atc.server[ref].endTime > 0 then Some(s.atc.server[ref].endTime) else w.end)
            && st.createdBy == (if found && s.atc.server[ref].createdBy.Some? then s.atc.server[ref].createdBy.value else w.createdBy)
            && st.observed == s.history[s.recs[r].at].generation
            && (s.history[s.recs[r].at].spec.abort ==> ref in s2.atc.aborts)
  {}

  /** Every run goes on with an undisturbed reconcile to the end: whether the refresh finds the build or not, the
      status is stored and tells what the replies said. */
  lemma CallsAreTracked(states: seq<State>, actions: seq<Action>, r: nat, found: bool)
      returns (states': seq<State>, actions': seq<Action>)
    requires IsRun(states, actions) && Last(states).WellFormed() && AtAbort(Last(states), r)
    requires found ==> Target(Last(states).history, Last(states).recs[r]) in Last(states).atc.server
    ensures IsRun(states', actions') && actions' == actions + [Abort(r), Refresh(r, found)] + [Write(r, Acked)]
    ensures TrackedFrom(Last(states), r, found, Last(states'))
  {
    ghost var s := Last(states);
    states', actions' := DraftIsReached(states, actions, r, found);
    ghost var s2 := Last(states');
    RunInv(states', actions', |actions'|);
    states', actions' := StatusLandsAcked(states', actions', r);
    TrackedIsReached(s, r, found, s2);
  }

  lemma DraftIsReached(states: seq<State>, actions: seq<Action>, r: nat, found: bool)
      returns (states': seq<State>, actions': seq<Action>)
    requires IsRun(states, actions) && Last(states).WellFormed() && AtAbort(Last(states), r)
    requires found ==> Target(Last(states).history, Last(states).recs[r]) in Last(states).atc.server
    ensures IsRun(states', actions') && actions' == actions + [Abort(r), Refresh(r, found)] && Last(states').WellFormed()
    ensures var s, s2 := Last(states), Last(states');
            && r in DoAbort(s, r).recs && DoAbort(s, r).recs[r].at < |DoAbort(s, r).history|
            && (found ==> Target(DoAbort(s, r).history, DoAbort(s, r).recs[r]) in DoAbort(s, r).atc.server)
            && s2 == DoRefresh(DoAbort(s, r), r, found)
            && At(s2, r, Writing) && IsCurrent(s2.history, s2.recs[r].at) && !s2.gone
  {
    ghost var s := Last(states);
    states', actions' := AbortIsCalled(states, actions, r);
    AbortMoves(s, r);
    states', actions' := StatusIsRefreshed(states', actions', r, found);
    DraftFrom(s, r, found, Last(states'));
  }

  lemma TrackedIsReached(s: State, r: nat, found: bool, s2: State)
    requires AtAbort(s, r) && (found ==> Target(s.history, s.recs[r]) in s.atc.server)
    requires r in DoAbort(s, r).recs && DoAbort(s, r).recs[r].at < |DoAbort(s, r).history|
    requires found ==> Target(DoAbort(s, r).history, DoAbort(s, r).recs[r]) in DoAbort(s, r).atc.server
    requires s2 == DoRefresh(DoAbort(s, r), r, found) && Inv(s2)
    requires At(s2, r, Writing) && IsCurrent(s2.history, s2.recs[r].at)
    ensures TrackedFrom(s, r, found, DoWrite(s2, r, Acked))
  {
    AbortMoves(s, r);
    DraftFrom(s, r, found, s2);
    DraftTells(s2, r);
    AckedLands(s2, r);
  }

  lemma AbortMoves(s: State, r: nat)
    requires At(s, r, Aborting) && s.recs[r].at < |s.history|
    ensures var s' := DoAbort(s, r);
            && s'.history == s.history && r in s'.recs && s'.recs[r] == s.recs[r].(pc := Refreshing) && s'.gone == s.gone
            && s'.atc.server == s.atc.server
  {}

  lemma AckedLands(s: State, r: nat)
    requires At(s, r, Writing) && |s.history| > 0
    ensures var s', draft := DoWrite(s, r, Acked), s.recs[r].draft;
            && |s'.history| > 0 && s'.Current() == s.Current().(status := draft) && s'.atc.aborts == s.atc.aborts
            && s'.atc.home == HomeOf(s.atc, s.recs[r])
            && (r in s'.recs <==> draft.phase !in {Succeeded, Failed, Errored, Aborted})
            && (r in s'.recs ==> s'.recs[r].pc.Spawning? && s'.recs[r].draft == draft)
  {}

  /** What a reconcile that read `before` and created `b` leaves if nothing disturbs it. */
  ghost predicate CreatedFrom(before: BuildVersion, b: AtcBuild, s': State) {
    && |s'.history| > 0
    && var was, st := before.status, s'.Current().status;
    && st.id == b.id && st.name == b.name && st.apiURL == b.apiURL && st.phase == b.phase
    && st.start == (if b.startTime > 0 then Some(b.startTime) else was.start)
    && st.end == (if b.endTime > 0 then Some(b.endTime) else was.end)
    && st.createdBy == (if b.createdBy.Some? then b.createdBy.value else was.createdBy)
    && st.observed == before.generation
    && Has(st.conds, "Ready", CondTrue, "Tracked") && CompleteTells(st)
    && s'.Stored() == b.Ref()
  }

  lemma CreatedIsTold(s: State, r: nat, b: AtcBuild, s': State)
    requires r in s.recs && s.recs[r].at < |s.history| && s.recs[r].made == Some(b) && s.recs[r].site == b.site
    requires b.Ref() in s.atc.server && s.atc.server[b.Ref()] == b && TrackedFrom(s, r, true, s')
    ensures CreatedFrom(s.history[s.recs[r].at], b, s')
  {}

  /** A Build without an ID: the reconcile creates its build first. */
  lemma UndisturbedCreates(states: seq<State>, actions: seq<Action>, r: nat, job: Job, walk: Walk, b: AtcBuild)
      returns (states': seq<State>, actions': seq<Action>)
    requires IsRun(states, actions) && CanBegin(Last(states), r, job, walk) && Last(states).Current().status.id == 0
    requires b.site == walk.JobSite(Last(states).namespace, job.pipelineRef) && FreshBuild(Last(states).atc, b)
    ensures IsRun(states', actions')
    ensures actions' == actions + [Begin(r), Read(r, |Last(states).history| - 1)] + [FindJob(r, JobFound(job))] + [Resolve(r, true, walk)]
                        + [Create(r, Made, b)] + [Abort(r), Refresh(r, true)] + [Write(r, Acked)]
    ensures CreatedFrom(Last(states).Current(), b, Last(states'))
  {
    states', actions' := FirstCallIsReached(states, actions, r, job, walk);
    states', actions' := BuildIsMade(states', actions', r, b);
    ghost var s := Last(states');
    states', actions' := CallsAreTracked(states', actions', r, true);
    CreatedIsTold(s, r, b, Last(states'));
  }

  lemma BuildIsMade(states: seq<State>, actions: seq<Action>, r: nat, b: AtcBuild)
      returns (states': seq<State>, actions': seq<Action>)
    requires IsRun(states, actions) && At(Last(states), r, Creating) && !Last(states).gone
    requires IsCurrent(Last(states).history, Last(states).recs[r].at)
    requires b.site == Last(states).recs[r].site && FreshBuild(Last(states).atc, b)
    ensures IsRun(states', actions') && actions' == actions + [Create(r, Made, b)]
    ensures Last(states').WellFormed() && AtAbort(Last(states'), r)
    ensures var s, s' := Last(states), Last(states');
            && s'.recs[r] == s.recs[r].(pc := Aborting, made := Some(b)) && s'.history == s.history
            && b.Ref() in s'.atc.server && s'.atc.server[b.Ref()] == b
  {
    LastIsWellFormed(states, actions);
    states', actions' := Extend(states, actions, Create(r, Made, b));
    LastIsWellFormed(states', actions');
    CreateMoves(Last(states), r, b);
  }

  lemma CreateMoves(s: State, r: nat, b: AtcBuild)
    requires r in s.recs && s.recs[r].at < |s.history|
    ensures var s' := DoCreate(s, r, Made, b);
            && s'.recs == s.recs[r := s.recs[r].(pc := Aborting, made := Some(b))]
            && s'.history == s.history && s'.gone == s.gone && s'.atc == Replied(s.atc, b)
  {}

  /** A Build with an ID: the reconcile refreshes it from the server of its walk, or keeps the phase if that server
      does not find it. */
  lemma UndisturbedRefreshes(states: seq<State>, actions: seq<Action>, r: nat, job: Job, walk: Walk, found: bool)
      returns (states': seq<State>, actions': seq<Action>)
    requires IsRun(states, actions) && CanBegin(Last(states), r, job, walk) && Last(states).Current().status.id != 0
    requires var ref := BuildRef(walk.JobSite(Last(states).namespace, job.pipelineRef), Last(states).Current().status.id);
             found ==> ref in Last(states).atc.server
    ensures IsRun(states', actions')
    ensures actions' == actions + [Begin(r), Read(r, |Last(states).history| - 1)] + [FindJob(r, JobFound(job))] + [Resolve(r, true, walk)]
                        + [Abort(r), Refresh(r, found)] + [Write(r, Acked)]
    ensures var s, s' := Last(states), Last(states');
            var ref := BuildRef(walk.JobSite(s.namespace, job.pipelineRef), s.Current().status.id);
            && |s'.history| > 0
            && var st := s'.Current().status;
            && st.id == s.Current().status.id
            && st.phase == (if found then s.atc.server[ref].phase else s.Current().status.phase)
            && st.start == s.Current().status.start
            && st.end == (if found && s.atc.server[ref].endTime > 0 then Some(s.atc.server[ref].endTime) else s.Current().status.end)
            && st.createdBy == (if found && s.atc.server[ref].createdBy.Some? then s.atc.server[ref].createdBy.value else s.Current().status.createdBy)
            && st.observed == s.Current().generation
            && Has(st.conds, "Ready", CondTrue, "Tracked") && CompleteTells(st)
            && (s.Current().spec.abort ==> ref in s'.atc.aborts)
  {
    states', actions' := FirstCallIsReached(states, actions, r, job, walk);
    LastIsWellFormed(states', actions');
    states', actions' := CallsAreTracked(states', actions', r, found);
  }
}
