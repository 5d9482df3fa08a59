/** The Resource reconciler: a check is due when the stored LastChecked, which the API server keeps in whole
    seconds, is at least one interval ago; any number of reconciles interleave, with stale reads and lost
    writes (internal/controller/resource_controller.go). Times are nanoseconds. */
module ResourceCheck {
  import opened ApiServer
  import opened Resolver

  const SECOND := 1_000_000_000

  datatype ResourceSpec = ResourceSpec(pipelineRef: string, checkInterval: Option<int>)

  datatype ResourceStatus =
    ResourceStatus(lastChecked: Option<int>, latestVersion: map<string, string>, observed: nat, conds: Conditions)

  const EMPTY_STATUS := ResourceStatus(None, map[], 0, map[])

  type ResourceVersion = Object<ResourceSpec, ResourceStatus>

  function Truncate(t: int): int {
    t - t % SECOND
  }

  /** A time is serialised without its fraction. */
  function Stored(st: ResourceStatus): ResourceStatus {
    st.(lastChecked := if st.lastChecked.Some? then Some(Truncate(st.lastChecked.value)) else None)
  }

  predicate ShouldCheck(spec: ResourceSpec, st: ResourceStatus, now: int) {
    if spec.checkInterval.None? then false
    else if st.lastChecked.None? then true
    else now - st.lastChecked.value >= spec.checkInterval.value
  }

  datatype PC = Resolving | Deciding | Checking | Stamping | Fetching | Writing | Reporting

  /** One running reconcile: the version it read, its walk along the chain, whether it made a check and whether that
      succeeded, the successful check, and the latest version it got. */
  datatype Recon =
    Recon(pc: PC, at: nat, walk: Option<Walk>, called: int, tried: Option<bool>, check: Option<Check>,
          latest: Option<map<string, string>>, draft: ResourceStatus)

  /** A successful check: when Concourse was called, the time taken as LastChecked, and the interval in force. */
  datatype Check = Check(called: int, stamp: int, interval: int)

  datatype State = State(
    namespace: string,
    history: seq<ResourceVersion>,
    now: int,
    recs: map<nat, Recon>,
    landed: seq<Check>)   // the successful checks whose status was stored, in order

  datatype Action =
    | Tick(time: int)
    | Read(r: nat, version: nat)
    | Resolve(r: nat, ok: bool, walk: Walk)
    | Decide(r: nat)
    | CallCheck(r: nat, ok: bool)
    | Stamp(r: nat)
    | FetchLatest(r: nat, found: Option<map<string, string>>)   // None: error or no version
    | Write(r: nat, fate: Fate)
    | Edit(spec: ResourceSpec)

  predicate Init(s: State) {
    && |s.history| == 1 && s.history[0].status == EMPTY_STATUS
    && s.recs == map[] && s.landed == []
  }

  predicate At(s: State, r: nat, pc: PC) {
    r in s.recs && s.recs[r].pc == pc && s.recs[r].at < |s.history|
  }

  /** The gate lets a reconcile through exactly on the chain of the Resource that was read. */
  ghost predicate Enabled(s: State, a: Action) {
    && |s.history| > 0
    && match a
       case Tick(time) => s.now <= time
       case Read(r, version) => r !in s.recs && version < |s.history|
       case Resolve(r, ok, walk) =>
         At(s, r, Resolving) && (ok <==> walk.JobResolves(s.namespace, s.history[s.recs[r].at].spec.pipelineRef))
       case Decide(r) => At(s, r, Deciding)
       case CallCheck(r, _) => At(s, r, Checking)
       case Stamp(r) => At(s, r, Stamping)
       case FetchLatest(r, _) => At(s, r, Fetching)
       case Write(r, fate) =>
         (At(s, r, Writing) || At(s, r, Reporting)) && (fate.Rejected? || IsCurrent(s.history, s.recs[r].at))
       case Edit(_) => true
  }

  function Goto(s: State, r: nat, c: Recon): State {
    s.(recs := s.recs[r := c])
  }

  function NotReady(c: Recon, reason: string): Recon {
    c.(pc := Reporting, draft := c.draft.(conds := SetCondition(c.draft.conds, READY, CondFalse, reason)))
  }

  /** A missing Pipeline ends the reconcile without a trace. */
  function DoResolve(s: State, r: nat, ok: bool, walk: Walk): State
    requires r in s.recs && s.recs[r].at < |s.history|
  {
    var c := s.recs[r];
    var key := (s.namespace, s.history[c.at].spec.pipelineRef);
    if ok then Goto(s, r, c.(pc := Deciding, walk := Some(walk)))
    else if key !in walk.cluster.pipelines then s.(recs := s.recs - {r})
    else if !IsReady(walk.cluster.pipelines[key].conds) then Goto(s, r, NotReady(c, "PipelineNotReady"))
    else Goto(s, r, NotReady(c, "ChainNotReady"))
  }

  function DoDecide(s: State, r: nat): State
    requires r in s.recs && s.recs[r].at < |s.history|
  {
    var c := s.recs[r];
    var o := s.history[c.at];
    var next :=
      if ShouldCheck(o.spec, o.status, s.now) then
        c.(pc := Checking)
      else if o.status.lastChecked.None? then
        c.(pc := Fetching, draft := c.draft.(conds := SetCondition(c.draft.conds, "CheckHealthy", CondUnknown, "CheckPending")))
      else
        c.(pc := Fetching);
    Goto(s, r, next.(called := s.now))
  }

  function DoCall(s: State, r: nat, ok: bool): State
    requires r in s.recs && s.recs[r].at < |s.history|
  {
    var c := s.recs[r];
    var next :=
      if ok then c.(pc := Stamping)
      else c.(pc := Fetching, draft := c.draft.(conds := SetCondition(c.draft.conds, "CheckHealthy", CondFalse, "CheckFailed")));
    Goto(s, r, next.(called := s.now, tried := Some(ok)))
  }

  function DoStamp(s: State, r: nat): State
    requires r in s.recs && s.recs[r].at < |s.history|
  {
    var c := s.recs[r];
    var o := s.history[c.at];
    var interval := if o.spec.checkInterval.Some? then o.spec.checkInterval.value else 0;
    Goto(s, r, c.(pc := Fetching, check := Some(Check(c.called, s.now, interval)),
                  draft := c.draft.(lastChecked := Some(s.now),
                                    conds := SetCondition(c.draft.conds, "CheckHealthy", CondTrue, "CheckSucceeded"))))
  }

  /** fetchLatestVersion, then the observed generation and Ready. */
  function DoFetch(s: State, r: nat, found: Option<map<string, string>>): State
    requires r in s.recs && s.recs[r].at < |s.history|
  {
    var c := s.recs[r];
    Goto(s, r, c.(pc := Writing, latest := found,
                  draft := c.draft.(latestVersion := if found.Some? then found.value else c.draft.latestVersion,
                                    observed := s.history[c.at].generation,
                                    conds := SetCondition(c.draft.conds, READY, CondTrue, "Ready"))))
  }

  function DoWrite(s: State, r: nat, fate: Fate): State
    requires r in s.recs && |s.history| > 0
  {
    var c := s.recs[r];
    if fate.Rejected? then
      s.(recs := s.recs - {r})
    else
      s.(recs := s.recs - {r}, history := PutStatus(s.history, Stored(c.draft)),
         landed := if c.check.Some? then s.landed + [c.check.value] else s.landed)
  }

  function Do(s: State, a: Action): State
    requires Enabled(s, a)
  {
    match a
    case Tick(time) => s.(now := time)
    case Read(r, version) =>
      if s.history[version].deleting then s
      else Goto(s, r, Recon(Resolving, version, None, s.now, None, None, None, s.history[version].status))
    case Resolve(r, ok, walk) => DoResolve(s, r, ok, walk)
    case Decide(r) => DoDecide(s, r)
    case CallCheck(r, ok) => DoCall(s, r, ok)
    case Stamp(r) => DoStamp(s, r)
    case FetchLatest(r, found) => DoFetch(s, r, found)
    case Write(r, fate) => DoWrite(s, r, fate)
    case Edit(spec) => s.(history := PutSpec(s.history, spec))
  }

  ghost predicate IsRun(states: seq<State>, actions: seq<Action>) {
    && |states| == |actions| + 1
    && Init(states[0])
    && forall i :: 0 <= i < |actions| ==> Enabled(states[i], actions[i]) && states[i + 1] == Do(states[i], actions[i])
  }

  /** Time `t` is allowed as the time of a check decided on version `v`. */
  ghost predicate Allowed(v: ResourceVersion, t: int) {
    && v.spec.checkInterval.Some?
    && (v.status.lastChecked.Some? ==> t - v.status.lastChecked.value >= v.spec.checkInterval.value)
  }

  /** Less than a second is lost when a time is stored: a check is due by the stored time if and only if it comes
      no earlier than the interval, less the fraction that the stamp has lost, after the stamp. So it comes more
      than the interval minus one second after it, and no better bound holds. */
  lemma TruncationCostsLessThanASecond(d: int, t: int, now: int)
    ensures ShouldCheck(ResourceSpec("", Some(d)), Stored(EMPTY_STATUS.(lastChecked := Some(t))), now) <==>
              now - t >= d - t % SECOND
    ensures ShouldCheck(ResourceSpec("", Some(d)), Stored(EMPTY_STATUS.(lastChecked := Some(t))), now) ==> now - t > d - SECOND
    ensures ShouldCheck(ResourceSpec("", Some(d)), Stored(EMPTY_STATUS.(lastChecked := Some(SECOND - 1))), d)
  {}

  ghost predicate ReconOk(s: State, c: Recon) {
    && c.at < |s.history|
    && (c.pc.Checking? || c.pc.Stamping? ==> Allowed(s.history[c.at], c.called) && c.called <= s.now)
    && (c.check.Some? ==>
          && (c.pc.Fetching? || c.pc.Writing?)
          && Allowed(s.history[c.at], c.check.value.called)
          && c.check.value.interval == s.history[c.at].spec.checkInterval.value
          && c.check.value.called <= c.check.value.stamp
          && c.draft.lastChecked == Some(c.check.value.stamp))
    && (c.check.None? ==> c.draft.lastChecked == s.history[c.at].status.lastChecked)
  }

  /** Each check comes more than its interval minus one second after the stamp of the one before. */
  ghost predicate Spaced(landed: seq<Check>) {
    && (forall k :: 0 <= k < |landed| ==> landed[k].called <= landed[k].stamp)
    && (forall k :: 0 <= k < |landed| - 1 ==> landed[k + 1].called - landed[k].stamp > landed[k + 1].interval - SECOND)
  }

  ghost predicate Inv(s: State) {
    && |s.history| > 0
    && (forall r <- s.recs :: ReconOk(s, s.recs[r]))
    && Spaced(s.landed)
    && Last(s.history).status.lastChecked == (if s.landed == [] then None else Some(Truncate(Last(s.landed).stamp)))
  }

  lemma ReconKept(s: State, s': State, c: Recon)
    requires s.history <= s'.history && s.now <= s'.now && ReconOk(s, c)
    ensures ReconOk(s', c)
  {}

  lemma MoveKeepsInv(s: State, s': State, r: nat)
    requires Inv(s) && s' == s.(recs := s'.recs)
    requires s'.recs == s.recs - {r} || (r in s'.recs && s'.recs == s.recs[r := s'.recs[r]] && ReconOk(s', s'.recs[r]))
    ensures Inv(s')
  {
    forall q <- s'.recs ensures ReconOk(s', s'.recs[q]) {
      if q != r { ReconKept(s, s', s.recs[q]); }
    }
  }

  lemma WriteKeepsInv(s: State, r: nat)
    requires Inv(s) && (At(s, r, Writing) || At(s, r, Reporting)) && IsCurrent(s.history, s.recs[r].at)
    ensures Inv(DoWrite(s, r, Acked))
  {
    var s' := DoWrite(s, r, Acked);
    var c := s.recs[r];
    assert ReconOk(s, c);
    forall q <- s'.recs ensures ReconOk(s', s'.recs[q]) { ReconKept(s, s', s.recs[q]); }
    if c.check.None? && s.landed != [] {
      assert Truncate(Truncate(Last(s.landed).stamp)) == Truncate(Last(s.landed).stamp);
    }
  }

  lemma ChoiceKeepsInv(s: State, a: Action)
    requires Inv(s) && Enabled(s, a) && (a.Resolve? || a.Decide?)
    ensures Inv(Do(s, a))
  {
    assert ReconOk(s, s.recs[a.r]);
    MoveKeepsInv(s, Do(s, a), a.r);
  }

  lemma CallKeepsInv(s: State, a: Action)
    requires Inv(s) && Enabled(s, a) && (a.CallCheck? || a.Stamp? || a.FetchLatest?)
    ensures Inv(Do(s, a))
  {
    assert ReconOk(s, s.recs[a.r]);
    MoveKeepsInv(s, Do(s, a), a.r);
  }

  lemma StepInv(s: State, a: Action)
    requires Inv(s) && Enabled(s, a)
    ensures Inv(Do(s, a))
  {
    var s' := Do(s, a);
    match a
    case Tick(_) => forall r <- s'.recs ensures ReconOk(s', s'.recs[r]) { ReconKept(s, s', s.recs[r]); }
    case Read(r, version) => if !s.history[version].deleting { MoveKeepsInv(s, s', r); }
    case Resolve(r, _, _) => ChoiceKeepsInv(s, a);
    case Decide(r) => ChoiceKeepsInv(s, a);
    case CallCheck(r, _) => CallKeepsInv(s, a);
    case Stamp(r) => CallKeepsInv(s, a);
    case FetchLatest(r, _) => CallKeepsInv(s, a);
    case Write(r, fate) => if fate.Rejected? { MoveKeepsInv(s, s', r); } else { WriteKeepsInv(s, r); }
    case Edit(_) => forall r <- s'.recs ensures ReconOk(s', s'.recs[r]) { ReconKept(s, s', s.recs[r]); }
  }

  lemma {:induction false} RunInv(states: seq<State>, actions: seq<Action>, i: nat)
    requires IsRun(states, actions) && i < |states|
    ensures Inv(states[i])
  {
    if i > 0 {
      RunInv(states, actions, i - 1);
      StepInv(states[i - 1], actions[i - 1]);
    }
  }

  // ----- No call without its chain -----

  /** Past the gate: only these make calls. */
  predicate Resolved(pc: PC) {
    !pc.Resolving? && !pc.Reporting?
  }

  ghost predicate HasChain(s: State, c: Recon) {
    c.at < |s.history| && c.walk.Some? && c.walk.value.JobResolves(s.namespace, s.history[c.at].spec.pipelineRef)
  }

  ghost predicate ChainOk(s: State, r: nat) {
    r in s.recs && Resolved(s.recs[r].pc) ==> HasChain(s, s.recs[r])
  }

  lemma StepKeepsHistory(s: State, a: Action)
    requires Enabled(s, a)
    ensures s.history <= Do(s, a).history
  {}

  lemma StepKeepsChain(s: State, a: Action, r: nat)
    requires Enabled(s, a) && ChainOk(s, r)
    ensures ChainOk(Do(s, a), r)
  {
    StepKeepsHistory(s, a);
  }

  lemma {:induction false} RunKeepsChain(states: seq<State>, actions: seq<Action>, i: nat, r: nat)
    requires IsRun(states, actions) && i < |states|
    ensures ChainOk(states[i], r)
  {
    if i > 0 {
      RunKeepsChain(states, actions, i - 1, r);
      StepKeepsChain(states[i - 1], actions[i - 1], r);
    }
  }

  /** Checks and the fetch of the latest version reach Concourse only along a ready chain of the Resource, which
      the same reconcile has walked. */
  lemma NoCallWithoutChain(states: seq<State>, actions: seq<Action>, i: nat)
    requires IsRun(states, actions) && i < |actions| && (actions[i].CallCheck? || actions[i].FetchLatest?)
    ensures actions[i].r in states[i].recs && HasChain(states[i], states[i].recs[actions[i].r])
    ensures var s, c := states[i], states[i].recs[actions[i].r];
            LinksReady(c.walk.value.cluster, s.namespace, s.history[c.at].spec.pipelineRef)
  {
    RunKeepsChain(states, actions, i, actions[i].r);
    var s, c := states[i], states[i].recs[actions[i].r];
    ResolvedLinksReady(c.walk.value, s.namespace, s.history[c.at].spec.pipelineRef);
  }

  // ----- The rate bound -----

  /** The gaps of a spaced log add up. */
  lemma {:induction false} GapsAddUp(l: seq<Check>, d: int, j: nat, k: nat)
    requires Spaced(l) && j < k < |l|
    requires forall n :: j <= n <= k ==> l[n].interval == d
    ensures l[k].called - l[j].stamp > (k - j) * (d - SECOND)
  {
    assert l[k - 1 + 1].called - l[k - 1].stamp > d - SECOND;
    if j < k - 1 {
      GapsAddUp(l, d, j, k - 1);
      OneGapMore(k - 1 - j, d - SECOND);
    }
  }

  lemma OneGapMore(n: nat, x: int)
    ensures (n + 1) * x == n * x + x
  {}

  /** Check rate bound: if the interval was `d` for all checks `j..k` that landed, then the `k - j` gaps between
      them took more than `(k - j) * (d - 1s)`, from call to call and from stamp to stamp. */
  lemma CheckRateBound(states: seq<State>, actions: seq<Action>, i: nat, d: int, j: nat, k: nat)
    requires IsRun(states, actions) && i < |states| && j < k < |states[i].landed|
    requires forall n :: j <= n <= k ==> states[i].landed[n].interval == d
    ensures var l := states[i].landed;
            && (k - j) * (d - SECOND) < l[k].called - l[j].called
            && (k - j) * (d - SECOND) < l[k].stamp - l[j].stamp
  {
    RunInv(states, actions, i);
    GapsAddUp(states[i].landed, d, j, k);
  }

  // ----- A run with an early check -----

  lemma Extend(states: seq<State>, actions: seq<Action>, a: Action) returns (states': seq<State>, actions': seq<Action>)
    requires IsRun(states, actions) && Enabled(Last(states), a)
    ensures IsRun(states', actions') && Last(states') == Do(Last(states), a) && actions' == actions + [a]
  {
    states', actions' := states + [Do(Last(states), a)], actions + [a];
  }

  /** Nothing runs, the chain is ready, and a check is due. */
  ghost predicate CheckIsDue(s: State, walk: Walk) {
    && |s.history| > 0 && s.recs == map[] && !Last(s.history).deleting
    && walk.JobResolves(s.namespace, Last(s.history).spec.pipelineRef)
    && ShouldCheck(Last(s.history).spec, Last(s.history).status, s.now)
  }

  lemma DueCheckIsCalled(states: seq<State>, actions: seq<Action>, walk: Walk) returns (states': seq<State>, actions': seq<Action>)
    requires IsRun(states, actions) && CheckIsDue(Last(states), walk)
    ensures IsRun(states', actions')
    ensures var s := Last(states);
            Last(states') == s.(recs := map[0 := Recon(Stamping, |s.history| - 1, Some(walk), s.now, Some(true), None, None, Last(s.history).status)])
  {
    var s := Last(states);
    states', actions' := Extend(states, actions, Read(0, |s.history| - 1));
    states', actions' := Extend(states', actions', Resolve(0, true, walk));
    states', actions' := Extend(states', actions', Decide(0));
    states', actions' := Extend(states', actions', CallCheck(0, true));
  }

  lemma DueCheckIsDrafted(states: seq<State>, actions: seq<Action>, walk: Walk) returns (states': seq<State>, actions': seq<Action>)
    requires IsRun(states, actions) && CheckIsDue(Last(states), walk)
    ensures IsRun(states', actions')
    ensures var s, s' := Last(states), Last(states');
            && s' == s.(recs := s'.recs) && s'.recs.Keys == {0}
            && s'.recs[0].pc.Writing? && s'.recs[0].at == |s.history| - 1
            && s'.recs[0].check == Some(Check(s.now, s.now, Last(s.history).spec.checkInterval.value))
            && s'.recs[0].draft.lastChecked == Some(s.now)
  {
    states', actions' := DueCheckIsCalled(states, actions, walk);
    states', actions' := Extend(states', actions', Stamp(0));
    states', actions' := Extend(states', actions', FetchLatest(0, None));
  }

  /** Any run goes on with an undisturbed reconcile that makes the check, at once. */
  lemma DueCheckLands(states: seq<State>, actions: seq<Action>, walk: Walk) returns (states': seq<State>, actions': seq<Action>)
    requires IsRun(states, actions) && CheckIsDue(Last(states), walk)
    ensures IsRun(states', actions')
    ensures var s, s' := Last(states), Last(states');
            && s'.namespace == s.namespace && s'.now == s.now && s'.recs == map[] && |s'.history| > 0
            && Last(s'.history).spec == Last(s.history).spec && !Last(s'.history).deleting
            && Last(s'.history).status.lastChecked == Some(Truncate(s.now))
            && s'.landed == s.landed + [Check(s.now, s.now, Last(s.history).spec.checkInterval.value)]
  {
    states', actions' := DueCheckIsDrafted(states, actions, walk);
    var s := Last(states');
    states', actions' := Extend(states', actions', Write(0, Acked));
    assert Last(states').recs == map[];
    assert Last(Last(states').history) == Last(s.history).(status := Stored(s.recs[0].draft));
  }

  /** With an interval of two seconds, two checks little more than one second apart. */
  lemma EarlyCheck() returns (states: seq<State>, actions: seq<Action>)
    ensures IsRun(states, actions)
    ensures var l := Last(states).landed;
            |l| == 2 && l[0].interval == l[1].interval == 2 * SECOND && l[1].called - l[0].stamp == SECOND + 1
  {
    var walk := ReadyWalk("ns", "pipeline", "team", "url");
    var v := Object(1, false, false, ResourceSpec("pipeline", Some(2 * SECOND)), EMPTY_STATUS);
    states, actions := [State("ns", [v], SECOND - 1, map[], [])], [];
    states, actions := DueCheckLands(states, actions, walk);
    states, actions := Extend(states, actions, Tick(2 * SECOND));
    states, actions := DueCheckLands(states, actions, walk);
  }
}
