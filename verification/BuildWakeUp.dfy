/** No lost wake-up: which Builds have a reconcile coming, and the one way to lose it
    (internal/controller/build_controller.go). */
module BuildWakeUp {
  import opened ApiServer
  import opened BuildStatuses
  import opened BuildProtocol
  import opened BuildInvariant
  import opened BuildCalls
  import opened BuildTheorems

  /** The Build still needs reconciling. */
  ghost predicate Live(s: State)
    requires |s.history| > 0
  {
    && !s.gone
    && !s.Current().deleting
    && s.Current().spec.jobRef.Some?
    && !Terminal(s.Current().status.phase)
  }

  /** Reconcile `r` is running and knows, or will read, the current spec. */
  ghost predicate Alert(s: State, r: nat) {
    r in s.recs && (s.recs[r].pc.Reading? || s.recs[r].at >= s.lastEdit)
  }

  /** Something will reconcile this Build: a timer, a queued request or error retry, the watch event of
      the last spec edit, or a running reconcile that has seen that edit. */
  ghost predicate Awake(s: State) {
    s.timer || s.queued || s.seen < s.lastEdit || exists r :: Alert(s, r)
  }

  /** Nothing but reconcile `r` keeps the Build awake. */
  ghost predicate OnlyAlert(s: State, r: nat) {
    && Alert(s, r)
    && !s.timer && !s.queued && s.seen >= s.lastEdit
    && forall q :: Alert(s, q) ==> q == r
  }

  /** A reconcile that reads a version at least as new as the last edit either goes on or finds nothing
      left to do. */
  lemma ReadKeepsAwake(s: State, r: nat, version: nat)
    requires HistoryOk(s.history, s.lastEdit, s.atc) && At(s, r, Reading) && s.seen <= version < |s.history| && Live(s)
    ensures Awake(DoRead(s, r, version))
  {
    var s' := DoRead(s, r, version);
    if version >= s.lastEdit {
      assert Precedes(s.history[version], s.Current());
      assert s.history[version].spec == s.Current().spec;
      assert Alert(s', r);
    }
  }

  lemma ReportKeepsAwake(s: State, r: nat, fate: Fate)
    requires HistoryOk(s.history, s.lastEdit, s.atc) && r in s.recs && s.recs[r].pc.Reporting? && ReconOk(s.history, s.atc, s.recs[r])
    requires Alert(s, r) && Live(s)
    ensures Awake(DoReport(s, r, fate))
  {
    assert s.history[s.recs[r].at].spec == s.Current().spec;
  }

  lemma WriteKeepsAwake(s: State, r: nat, fate: Fate)
    requires |s.history| > 0 && s.lastEdit < |s.history| && At(s, r, Writing)
    requires Live(DoWrite(s, r, fate))
    ensures Awake(DoWrite(s, r, fate))
  {
    var s' := DoWrite(s, r, fate);
    if r in s'.recs { assert Alert(s', r); }
  }

  /** An alert reconcile that moves leaves a live Build awake, unless it met a missing Job. */
  lemma OwnStepKeepsAwake(s: State, a: Action, s': State)
    requires Inv(s) && IsStep(s, a, s') && |s'.history| > 0 && Live(s')
    requires !IsOutside(a) && Alert(s, a.r) && StepOf(s, s', a.r)
    requires !(a.FindJob? && a.lookup.JobMissing?)
    ensures Awake(s')
  {
    assert ReconOk(s.history, s.atc, s.recs[a.r]);
    StayedLive(s, s', a.r);
    if a.Read? {
      ReadKeepsAwake(s, a.r, a.version);
    } else if a.Report? {
      ReportKeepsAwake(s, a.r, a.fate);
    } else if a.Write? {
      WriteKeepsAwake(s, a.r, a.fate);
    } else {
      CallKeepsAwake(s, a, s');
    }
  }

  /** The other calls keep the reconcile running or end it with a timer or a retry. */
  lemma CallKeepsAwake(s: State, a: Action, s': State)
    requires IsStep(s, a, s') && !s.gone && !IsOutside(a) && Alert(s, a.r)
    requires !a.Read? && !a.Report? && !a.Write? && !(a.FindJob? && a.lookup.JobMissing?)
    ensures Awake(s')
  {
    if a.Resolve? || a.Create? || a.Abort? || a.Refresh? {
      CallContinues(s, a, s');
      assert Alert(s', a.r);
    } else if a.FindJob? && a.lookup.JobFound? {
      assert Alert(s', a.r);
    }
  }

  lemma CallContinues(s: State, a: Action, s': State)
    requires IsStep(s, a, s') && (a.Resolve? || a.Create? || a.Abort? || a.Refresh?)
    ensures a.r in s.recs && a.r in s'.recs && s'.recs[a.r].at == s.recs[a.r].at
    ensures s'.lastEdit == s.lastEdit && !s.recs[a.r].pc.Reading?
  {}

  /** A reconcile never brings a Build to life: it does not touch the spec and keeps terminal phases. */
  lemma StayedLive(s: State, s': State, r: nat)
    requires |s.history| > 0 && |s'.history| > 0 && Live(s') && StepOf(s, s', r)
    requires s'.history != s.history ==>
               r in s.recs && ReconOk(s.history, s.atc, s.recs[r]) && IsCurrent(s.history, s.recs[r].at)
    ensures Live(s)
  {}

  lemma OutsideKeepsAwake(s: State, a: Action, s': State)
    requires |s.history| > 0 && |s'.history| > 0 && IsStep(s, a, s') && IsOutside(a) && Live(s')
    requires Live(s) ==> Awake(s)
    ensures Awake(s')
  {
    if a.Begin? {
      assert Alert(s', a.r);
    } else if r :| Alert(s, r) {
      assert a.Edit? || Alert(s', r);
    }
  }

  /** A step that puts a live Build to sleep is the last alert reconcile meeting a missing Job. */
  lemma StepKeepsAwake(s: State, a: Action, s': State)
    requires Inv(s) && IsStep(s, a, s') && |s'.history| > 0 && Live(s')
    requires Awake(s) && !Awake(s')
    ensures a.FindJob? && a.lookup.JobMissing? && OnlyAlert(s, a.r)
  {
    if IsOutside(a) { OutsideKeepsAwake(s, a, s'); }
    ReconcileStepOf(s, a, s');
    forall r: nat | Alert(s, r) ensures r == a.r {
      if r != a.r { assert Alert(s', r); }
    }
    if !(a.FindJob? && a.lookup.JobMissing?) { OwnStepKeepsAwake(s, a, s'); }
  }

  /** And that step does put the Build to sleep: no later reconcile is due even if the Job comes back. */
  lemma MissingJobLosesWakeUp(s: State, r: nat)
    requires Inv(s) && At(s, r, FindingJob) && OnlyAlert(s, r)
    ensures Enabled(s, FindJob(r, JobMissing)) && !Awake(Do(s, FindJob(r, JobMissing)))
  {
    InvIsWellFormed(s);
    var s' := Do(s, FindJob(r, JobMissing));
    forall q ensures !Alert(s', q) {
      if Alert(s', q) { assert Alert(s, q); }
    }
  }

  lemma StayedLiveOutside(s: State, a: Action, s': State)
    requires |s.history| > 0 && |s'.history| > 0 && IsStep(s, a, s') && IsOutside(a) && !a.Edit? && Live(s')
    ensures Live(s)
  {}

  lemma WriterIsCurrent(s: State, a: Action, s': State)
    requires IsStep(s, a, s') && !IsOutside(a) && s'.history != s.history
    ensures a.r in s.recs && IsCurrent(s.history, s.recs[a.r].at)
  {}

  lemma WasLive(s: State, a: Action, s': State)
    requires Inv(s) && IsStep(s, a, s') && !IsOutside(a) && |s'.history| > 0 && Live(s')
    ensures Live(s)
  {
    ReconcileStepOf(s, a, s');
    if s'.history != s.history { WriterIsCurrent(s, a, s'); }
    StayedLive(s, s', a.r);
  }

  // ----- What wakes a sleeping Build -----

  /** The last alert reconcile meets a missing Job. */
  ghost predicate LosesWakeUp(s: State, a: Action) {
    a.FindJob? && a.lookup.JobMissing? && OnlyAlert(s, a.r)
  }

  /** A request from outside, an edit, or the end of a stale reconcile by an error, a requeue or a watcher. */
  predicate Waking(s: State, a: Action) {
    || a.Enqueue? || a.Deliver? || a.Edit?
    || a.Die? || a.Write? || a.Spawn?
    || (a.FindJob? && a.lookup.JobError?)
    || (a.Report? && At(s, a.r, Reporting(true)))
  }

  lemma WakingWakes(s: State, a: Action, s': State)
    requires Inv(s) && IsStep(s, a, s') && !Awake(s) && Waking(s, a)
    ensures Awake(s')
  {
    if a.Write? {
      assert !Alert(s, a.r);
      assert a.fate.Rejected?;
    } else if a.Report? {
      assert !Alert(s, a.r);
      assert a.fate.Rejected?;
    }
  }

  /** A reconcile that is alert after a step that wakes nothing was so before. */
  lemma NoNewAlert(s: State, a: Action, s': State, q: nat)
    requires IsStep(s, a, s') && !s.queued && !Waking(s, a) && Alert(s', q)
    ensures Alert(s, q)
  {
    if IsOutside(a) {
      OutsideStays(s, a, s', q);
    } else if Ends(a) {
      EndMove(s, a, s', q);
    } else if a.Read? {
      ReadMove(s, a, s', q);
      assert s'.recs[q] == s.recs[q] || a.r == q;
    } else if a.FindJob? {
      FindMove(s, a, s', q);
    } else if a.Resolve? {
      ResolveMove(s, a, s', q);
    } else if a.Create? {
      CreateMove(s, a, s', q);
    } else {
      CallMove(s, a, s', q);
    }
  }

  lemma OthersDoNotWake(s: State, a: Action, s': State)
    requires Inv(s) && IsStep(s, a, s') && !Awake(s) && !Waking(s, a)
    ensures !s'.timer && !s'.queued && s'.seen >= s'.lastEdit
  {
    if a.Report? { assert !Alert(s, a.r); }
    if a.Read? { assert Alert(s, a.r); }
  }

  /** A sleeping Build is woken by exactly these actions. */
  lemma WakesIff(s: State, a: Action, s': State)
    requires Inv(s) && IsStep(s, a, s') && !Awake(s)
    ensures Awake(s') <==> Waking(s, a)
  {
    if Waking(s, a) {
      WakingWakes(s, a, s');
    } else {
      OthersDoNotWake(s, a, s');
      forall q ensures !Alert(s', q) {
        if Alert(s', q) { NoNewAlert(s, a, s', q); }
      }
    }
  }

  /** A live Build that is asleep after a step was put to sleep by it, or slept before and was not woken. */
  lemma AsleepAfter(s: State, a: Action, s': State)
    requires Inv(s) && IsStep(s, a, s') && |s'.history| > 0 && Live(s') && !Awake(s')
    ensures LosesWakeUp(s, a) || (Live(s) && !Awake(s) && !Waking(s, a))
  {
    if Awake(s) {
      StepKeepsAwake(s, a, s');
    } else {
      WakesIff(s, a, s');
      if IsOutside(a) { StayedLiveOutside(s, a, s'); } else { WasLive(s, a, s'); }
    }
  }

  /** Both of these leave the Build asleep. */
  lemma FallsAsleep(s: State, a: Action, s': State)
    requires Inv(s) && IsStep(s, a, s') && LosesWakeUp(s, a)
    ensures !Awake(s')
  {
    MissingJobLosesWakeUp(s, a.r);
  }

  lemma StaysAsleep(s: State, a: Action, s': State)
    requires Inv(s) && IsStep(s, a, s') && !Awake(s) && !Waking(s, a)
    ensures !Awake(s')
  {
    WakesIff(s, a, s');
  }

  // ----- Over runs -----

  ghost predicate NoneWakes(states: seq<State>, actions: seq<Action>, j: nat, i: nat)
    requires i <= |actions| < |states|
  {
    forall k :: j < k < i ==> !Waking(states[k], actions[k])
  }

  /** A wake-up was lost at action `j`, and nothing has woken the Build since. */
  ghost predicate LostAt(states: seq<State>, actions: seq<Action>, j: nat, i: nat)
    requires j < i <= |actions| < |states|
  {
    LosesWakeUp(states[j], actions[j]) && NoneWakes(states, actions, j, i)
  }

  ghost predicate Lost(states: seq<State>, actions: seq<Action>, i: nat)
    requires i <= |actions| < |states|
  {
    exists j :: 0 <= j < i && LostAt(states, actions, j, i)
  }

  lemma StepSleepsOn(states: seq<State>, actions: seq<Action>, i: nat)
    requires IsRun(states, actions) && i < |actions| && !Awake(states[i]) && !Waking(states[i], actions[i])
    ensures !Awake(states[i + 1])
  {
    RunInv(states, actions, i);
    StaysAsleep(states[i], actions[i], states[i + 1]);
  }

  lemma {:induction false} SleepsOn(states: seq<State>, actions: seq<Action>, j: nat, i: nat)
    requires IsRun(states, actions) && j < i < |states| && !Awake(states[j + 1]) && NoneWakes(states, actions, j, i)
    ensures !Awake(states[i])
  {
    if j + 1 < i {
      assert !Waking(states[i - 1], actions[i - 1]);
      assert NoneWakes(states, actions, j, i - 1);
      SleepsOn(states, actions, j, i - 1);
      StepSleepsOn(states, actions, i - 1);
    }
  }

  lemma LostIsAsleep(states: seq<State>, actions: seq<Action>, i: nat, j: nat)
    requires IsRun(states, actions) && j < i < |states| && LostAt(states, actions, j, i)
    ensures !Awake(states[i])
  {
    RunInv(states, actions, j);
    FallsAsleep(states[j], actions[j], states[j + 1]);
    SleepsOn(states, actions, j, i);
  }

  lemma {:induction false} AsleepIsLost(states: seq<State>, actions: seq<Action>, i: nat)
    requires IsRun(states, actions) && i < |states| && |states[i].history| > 0 && Live(states[i]) && !Awake(states[i])
    ensures Lost(states, actions, i)
  {
    if i > 0 {
      var s, a := states[i - 1], actions[i - 1];
      RunInv(states, actions, i - 1);
      assert IsStep(s, a, states[i]);
      AsleepAfter(s, a, states[i]);
      if LosesWakeUp(s, a) {
        assert NoneWakes(states, actions, i - 1, i);
        assert LostAt(states, actions, i - 1, i);
      } else {
        AsleepIsLost(states, actions, i - 1);
        var j :| 0 <= j < i - 1 && LostAt(states, actions, j, i - 1);
        assert NoneWakes(states, actions, j, i);
        assert LostAt(states, actions, j, i);
      }
    }
  }

  /** No lost wake-up, exactly: in every state of every run a live Build has nothing pending if and only if its
      last alert reconcile met a missing Job at some time and nothing has woken it since. */
  lemma NoLostWakeUp(states: seq<State>, actions: seq<Action>, i: nat)
    requires IsRun(states, actions) && i < |states|
    ensures |states[i].history| > 0
    ensures Live(states[i]) ==> (!Awake(states[i]) <==> Lost(states, actions, i))
  {
    RunInv(states, actions, i);
    if Live(states[i]) && !Awake(states[i]) { AsleepIsLost(states, actions, i); }
    if Lost(states, actions, i) {
      var j :| 0 <= j < i && LostAt(states, actions, j, i);
      LostIsAsleep(states, actions, i, j);
    }
  }

  /** The Build has its ID, and a timer, a watch event and the event of its watcher have all been delivered. */
  lemma TrackedBuildIsQueued() returns (states: seq<State>, actions: seq<Action>)
    ensures IsRun(states, actions)
    ensures var s := Last(states);
            && s.recs == map[] && s.queued && !s.timer && s.seen == 1 && s.lastEdit == 0 && !s.gone && |s.history| == 2
            && s.history[1].status.id == 1 && !Terminal(s.history[1].status.phase)
            && !s.history[1].deleting && s.history[1].spec.jobRef.Some?
  {
    states, actions := BuildIsCreated();
    assert Last(states) == AfterCreate().(atc := AtcAt(CREATED));
    states, actions := StatusIsWritten(states, actions, CREATED);
    states, actions := Extend(states, actions, Spawn(0));
    assert Last(states).recs == map[];
    states, actions := Extend(states, actions, Fire);
    states, actions := Extend(states, actions, Enqueue);
    states, actions := Extend(states, actions, Deliver(1));
  }

  /** A Job that is missing at one reconcile and back right after leaves a live Build, with its ID stored, with
      nothing pending: no timer, request or retry, no reconcile and no undelivered watch event. */
  lemma MissingJobStrandsABuild() returns (states: seq<State>, actions: seq<Action>)
    ensures IsRun(states, actions)
    ensures var s := Last(states);
            && |s.history| > 0 && Live(s) && !Awake(s)
            && s.Current().status.id != 0 && s.recs == map[] && s.seen + 1 == |s.history|
  {
    states, actions := TrackedBuildIsQueued();
    states, actions := Extend(states, actions, Begin(0));
    states, actions := Extend(states, actions, Read(0, 1));
    states, actions := Extend(states, actions, FindJob(0, JobMissing));
    assert Last(states).recs == map[];
  }
}
