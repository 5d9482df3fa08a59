/** The Job reconciler: it syncs the pause flag, creates a Build CR when the generation was not observed yet,
    fetches the last build, and stores the observed generation afterwards; any number of reconciles
    interleave, with stale reads and lost writes (internal/controller/job_controller.go). */
module JobTrigger {
  import opened ApiServer
  import opened Resolver

  datatype JobSpec = JobSpec(pipelineRef: string, jobName: string, paused: bool, triggerBuild: bool)

  /** The last finished build as Concourse reports it; end time 0 when absent. */
  datatype FinishedBuild = FinishedBuild(id: int, status: string, endTime: int)

  datatype JobStatus = JobStatus(observed: nat, paused: bool, lastBuildID: int, lastBuildStatus: string,
                                 lastBuildTime: Option<int>, conds: Conditions)

  const EMPTY_STATUS := JobStatus(0, false, 0, "", None, map[])

  const LAST_SUCCEEDED := "LastBuildSucceeded"

  type JobVersion = Object<JobSpec, JobStatus>

  datatype PC = Resolving | Pausing | Triggering | Fetching | Writing | Reporting

  /** One running reconcile: the version it read, its walk along the chain, whether it tried to create a Build
      CR, whether its pause call succeeded, the job info it got, and the status it is about to write. */
  datatype Recon = Recon(pc: PC, at: nat, walk: Option<Walk>, attempted: bool, pauseOk: bool, info: Option<FetchReply>, draft: JobStatus)

  datatype State = State(
    namespace: string,
    history: seq<JobVersion>,
    recs: map<nat, Recon>,
    attempts: nat,        // create calls for Build CRs
    builds: seq<nat>,     // for each Build CR created, the generation it was created for
    failed: nat,          // create calls without effect
    landed: seq<nat>,     // generations of the attempts whose status write was stored, in order
    lost: nat)            // attempts whose status write was not stored

  datatype CreateOutcome = Created | CreatedUnacked | CreateFailed

  datatype FetchReply = FetchFailed | NoBuild | Finished(build: FinishedBuild)

  datatype Action =
    | Read(r: nat, version: nat)
    | Resolve(r: nat, ok: bool, walk: Walk)
    | Pause(r: nat, ok: bool)
    | Trigger(r: nat, outcome: CreateOutcome)
    | Fetch(r: nat, reply: FetchReply)
    | Write(r: nat, fate: Fate)
    | Report(r: nat, fate: Fate)
    | Die(r: nat)
    | Edit(spec: JobSpec)

  predicate Init(s: State) {
    && |s.history| == 1 && s.history[0].generation == 1 && s.history[0].status == EMPTY_STATUS
    && s.recs == map[] && s.attempts == 0 && s.builds == [] && s.failed == 0 && s.landed == [] && s.lost == 0
  }

  predicate At(s: State, r: nat, pc: PC) {
    r in s.recs && s.recs[r].pc == pc && s.recs[r].at < |s.history|
  }

  predicate FateAllowed(s: State, r: nat, fate: Fate)
    requires r in s.recs
  {
    fate.Rejected? || IsCurrent(s.history, s.recs[r].at)
  }

  /** The resolver succeeds exactly on the chain of the Job that was read. */
  ghost predicate Enabled(s: State, a: Action) {
    && |s.history| > 0
    && match a
       case Read(r, version) => r !in s.recs && version < |s.history|
       case Resolve(r, ok, walk) =>
         At(s, r, Resolving) && (ok <==> walk.JobResolves(s.namespace, s.history[s.recs[r].at].spec.pipelineRef))
       case Pause(r, _) => At(s, r, Pausing)
       case Trigger(r, _) => At(s, r, Triggering)
       case Fetch(r, _) => At(s, r, Fetching)
       case Write(r, fate) => At(s, r, Writing) && FateAllowed(s, r, fate)
       case Report(r, fate) => At(s, r, Reporting) && FateAllowed(s, r, fate)
       case Die(r) => r in s.recs
       case Edit(_) => true
  }

  /** The version asks for a Build that it has not observed as triggered. */
  predicate Due(v: JobVersion) {
    v.spec.triggerBuild && v.status.observed != v.generation
  }

  function Goto(s: State, r: nat, c: Recon): State {
    s.(recs := s.recs[r := c])
  }

  function DoRead(s: State, r: nat, version: nat): State
    requires version < |s.history|
  {
    var o := s.history[version];
    if o.deleting then s else Goto(s, r, Recon(Resolving, version, None, false, false, None, o.status))
  }

  function DoResolve(s: State, r: nat, ok: bool, walk: Walk): State
    requires r in s.recs
  {
    var c := s.recs[r];
    if ok then Goto(s, r, c.(pc := Pausing, walk := Some(walk)))
    else Goto(s, r, c.(pc := Reporting, draft := c.draft.(conds := SetCondition(c.draft.conds, READY, CondFalse, "PipelineNotReady"))))
  }

  /** PauseJob or UnpauseJob; a failed call leaves the status alone. */
  function DoPause(s: State, r: nat, ok: bool): State
    requires r in s.recs && s.recs[r].at < |s.history|
  {
    var c := s.recs[r];
    Goto(s, r, c.(pc := Triggering, pauseOk := ok, draft := c.draft.(paused := if ok then s.history[c.at].spec.paused else c.draft.paused)))
  }

  function DoTrigger(s: State, r: nat, outcome: CreateOutcome): State
    requires r in s.recs && s.recs[r].at < |s.history|
  {
    var c := s.recs[r];
    var o := s.history[c.at];
    var due := Due(o);
    var draft := c.draft.(observed := o.generation, conds := SetCondition(c.draft.conds, READY, CondTrue, "Ready"));
    Goto(s, r, c.(pc := Fetching, attempted := due, draft := draft)).(
      attempts := if due then s.attempts + 1 else s.attempts,
      builds := if due && !outcome.CreateFailed? then s.builds + [o.generation] else s.builds,
      failed := if due && outcome.CreateFailed? then s.failed + 1 else s.failed)
  }

  /** What the job info leaves in the status. */
  function WithLastBuild(st: JobStatus, reply: FetchReply): JobStatus {
    match reply
    case FetchFailed => st.(conds := SetCondition(st.conds, LAST_SUCCEEDED, CondUnknown, "FetchFailed"))
    case NoBuild => st.(conds := SetCondition(st.conds, LAST_SUCCEEDED, CondUnknown, "NoBuild"))
    case Finished(b) =>
      st.(lastBuildID := b.id, lastBuildStatus := b.status,
          lastBuildTime := if b.endTime > 0 then Some(b.endTime) else st.lastBuildTime,
          conds := if b.status == "succeeded" then SetCondition(st.conds, LAST_SUCCEEDED, CondTrue, "Succeeded")
                   else SetCondition(st.conds, LAST_SUCCEEDED, CondFalse, b.status))
  }

  function DoFetch(s: State, r: nat, reply: FetchReply): State
    requires r in s.recs
  {
    var c := s.recs[r];
    Goto(s, r, c.(pc := Writing, info := Some(reply), draft := WithLastBuild(c.draft, reply)))
  }

  function DoWrite(s: State, r: nat, fate: Fate): State
    requires r in s.recs && |s.history| > 0
  {
    var c := s.recs[r];
    if fate.Rejected? then
      s.(recs := s.recs - {r}, lost := if c.attempted then s.lost + 1 else s.lost)
    else
      s.(recs := s.recs - {r}, history := PutStatus(s.history, c.draft),
         landed := if c.attempted then s.landed + [Last(s.history).generation] else s.landed)
  }

  function Do(s: State, a: Action): State
    requires Enabled(s, a)
  {
    match a
    case Read(r, version) => DoRead(s, r, version)
    case Resolve(r, ok, walk) => DoResolve(s, r, ok, walk)
    case Pause(r, ok) => DoPause(s, r, ok)
    case Trigger(r, outcome) => DoTrigger(s, r, outcome)
    case Fetch(r, reply) => DoFetch(s, r, reply)
    case Write(r, fate) => DoWrite(s, r, fate)
    case Report(r, fate) => DoWrite(s, r, fate)
    case Die(r) => DoWrite(s, r, Rejected)
    case Edit(spec) => s.(history := PutSpec(s.history, spec))
  }

  ghost predicate IsRun(states: seq<State>, actions: seq<Action>) {
    && |states| == |actions| + 1
    && Init(states[0])
    && forall i :: 0 <= i < |actions| ==> Enabled(states[i], actions[i]) && states[i + 1] == Do(states[i], actions[i])
  }

  /** The reconciles that have made an attempt and not written their status yet. */
  function InFlight(recs: map<nat, Recon>): set<nat> {
    set r | r in recs && recs[r].attempted
  }

  /** Generation `g` was edited in with TriggerBuild set. */
  ghost predicate Asked(h: seq<JobVersion>, g: nat) {
    exists v :: 0 <= v < |h| && h[v].generation == g && h[v].spec.triggerBuild
  }

  /** Generation `g` was stored as observed. */
  ghost predicate Observed(h: seq<JobVersion>, g: nat) {
    exists v :: 0 <= v < |h| && h[v].status.observed == g
  }

  ghost predicate StrictlyIncreasing(gs: seq<nat>) {
    forall i, j :: 0 <= i < j < |gs| ==> gs[i] < gs[j]
  }

  ghost predicate HistoryOk(h: seq<JobVersion>) {
    && |h| > 0
    && (forall v :: 0 <= v < |h| ==> h[v].status.observed <= h[v].generation && 1 <= h[v].generation)
    && (forall v :: 0 <= v < |h| ==> h[v].generation <= Last(h).generation && h[v].status.observed <= Last(h).status.observed)
    && (forall v :: 0 <= v < |h| && h[v].generation == Last(h).generation ==> h[v].spec == Last(h).spec)
  }

  /** The landed attempts are exactly the observed generations that asked for a Build, once each. */
  ghost predicate LandedOk(h: seq<JobVersion>, landed: seq<nat>)
    requires |h| > 0
  {
    && StrictlyIncreasing(landed)
    && (forall g <- landed :: g <= Last(h).status.observed)
    && (forall g :: g in landed <==> Observed(h, g) && Asked(h, g))
  }

  /** Past the trigger decision. */
  predicate Decided(pc: PC) {
    pc.Fetching? || pc.Writing?
  }

  ghost predicate ReconOk(s: State, c: Recon) {
    && c.at < |s.history|
    && (c.attempted ==> Decided(c.pc))
    && (Decided(c.pc) ==>
          && c.draft.observed == s.history[c.at].generation
          && (c.attempted <==> Due(s.history[c.at])))
    && (!Decided(c.pc) ==> c.draft.observed == s.history[c.at].status.observed)
  }

  ghost predicate ReconsOk(s: State) {
    forall r <- s.recs :: ReconOk(s, s.recs[r])
  }

  ghost predicate Inv(s: State) {
    && HistoryOk(s.history)
    && LandedOk(s.history, s.landed)
    && ReconsOk(s)
    && s.attempts == |s.landed| + s.lost + |InFlight(s.recs)|
    && |s.builds| + s.failed == s.attempts
  }

  lemma ReconKept(s: State, s': State, c: Recon)
    requires s.history <= s'.history && ReconOk(s, c)
    ensures ReconOk(s', c)
  {}

  /** Reconcile `r` now stands at `s'.recs[r]`, or has ended. */
  lemma ReconsKept(s: State, s': State, r: nat)
    requires s.history <= s'.history && ReconsOk(s)
    requires s'.recs == s.recs - {r} || (r in s'.recs && s'.recs == s.recs[r := s'.recs[r]] && ReconOk(s', s'.recs[r]))
    ensures ReconsOk(s')
  {
    forall q <- s'.recs ensures ReconOk(s', s'.recs[q]) {
      if q != r { ReconKept(s, s', s.recs[q]); }
    }
  }

  lemma InFlightMoves(recs: map<nat, Recon>, r: nat, c: Recon)
    ensures InFlight(recs[r := c]) == if c.attempted then InFlight(recs) + {r} else InFlight(recs) - {r}
    ensures InFlight(recs - {r}) == InFlight(recs) - {r}
  {}

  /** Appending a version of the current generation changes neither question. */
  lemma PutStatusKeeps(h: seq<JobVersion>, status: JobStatus, g: nat)
    requires HistoryOk(h)
    ensures var h' := PutStatus(h, status);
            && (Asked(h', g) <==> Asked(h, g))
            && (Observed(h', g) <==> Observed(h, g) || status.observed == g)
  {
    var h' := PutStatus(h, status);
    assert h <= h';
    assert h'[|h'| - 1].status == status && h'[|h'| - 1].spec == Last(h).spec;
    assert h'[|h'| - 1].generation == Last(h).generation;
    if Asked(h, g) {
      var v :| 0 <= v < |h| && h[v].generation == g && h[v].spec.triggerBuild;
      assert h'[v] == h[v];
    }
    if Asked(h', g) {
      var v :| 0 <= v < |h'| && h'[v].generation == g && h'[v].spec.triggerBuild;
      if v == |h| { assert h[|h| - 1].generation == g && h[|h| - 1].spec.triggerBuild; }
    }
    if Observed(h, g) {
      var v :| 0 <= v < |h| && h[v].status.observed == g;
      assert h'[v] == h[v];
    }
  }

  /** A generation is never observed before it exists, so asking with a new one changes no answer. */
  lemma PutSpecKeeps(h: seq<JobVersion>, spec: JobSpec, g: nat)
    requires HistoryOk(h)
    ensures var h' := PutSpec(h, spec);
            && (Observed(h', g) <==> Observed(h, g))
            && (Asked(h', g) <==> Asked(h, g) || (g == Last(h').generation && spec.triggerBuild))
            && (spec == Last(h).spec ==> (Asked(h', g) <==> Asked(h, g)))
  {
    var h' := PutSpec(h, spec);
    assert forall v :: 0 <= v < |h| ==> h'[v] == h[v];
    assert h'[|h|].status == h[|h| - 1].status;
    if Observed(h, g) {
      var v :| 0 <= v < |h| && h[v].status.observed == g;
      assert h'[v].status.observed == g;
    }
    if Observed(h', g) {
      var v :| 0 <= v < |h'| && h'[v].status.observed == g;
      if v == |h| { assert h[|h| - 1].status.observed == g; }
    }
    if Asked(h, g) {
      var v :| 0 <= v < |h| && h[v].generation == g && h[v].spec.triggerBuild;
      assert h'[v].generation == g && h'[v].spec.triggerBuild;
    }
    if Asked(h', g) {
      var v :| 0 <= v < |h'| && h'[v].generation == g && h'[v].spec.triggerBuild;
      if v == |h| { assert spec == Last(h).spec ==> h[|h| - 1].generation == g && h[|h| - 1].spec.triggerBuild; }
    }
    if g == Last(h').generation && spec.triggerBuild { assert h'[|h|].generation == g; }
  }

  lemma EditKeepsInv(s: State, spec: JobSpec)
    requires Inv(s)
    ensures Inv(s.(history := PutSpec(s.history, spec)))
  {
    var s' := s.(history := PutSpec(s.history, spec));
    var h, h' := s.history, s'.history;
    forall r <- s'.recs ensures ReconOk(s', s'.recs[r]) { ReconKept(s, s', s.recs[r]); }
    forall g ensures g in s'.landed <==> Observed(h', g) && Asked(h', g) {
      PutSpecKeeps(h, spec, g);
      if Observed(h, g) { var v :| 0 <= v < |h| && h[v].status.observed == g; }
    }
  }

  lemma AppendIncreasing(landed: seq<nat>, g: nat)
    requires StrictlyIncreasing(landed) && forall x <- landed :: x < g
    ensures StrictlyIncreasing(landed + [g]) && forall x :: x in landed + [g] <==> x in landed || x == g
  {
    var l := landed + [g];
    forall i, j | 0 <= i < j < |l| ensures l[i] < l[j] {
      if j == |landed| { assert l[i] in landed; }
    }
  }

  /** The current generation is stored as observed; it joins the landed ones exactly if it was due. */
  lemma ObservedLands(h: seq<JobVersion>, landed: seq<nat>, status: JobStatus)
    requires HistoryOk(h) && LandedOk(h, landed) && status.observed == Last(h).generation
    ensures LandedOk(PutStatus(h, status), if Due(Last(h)) then landed + [Last(h).generation] else landed)
  {
    var h' := PutStatus(h, status);
    var now := Last(h).generation;
    var landed' := if Due(Last(h)) then landed + [now] else landed;
    if Due(Last(h)) { AppendIncreasing(landed, now); }
    assert h[|h| - 1] == Last(h);
    forall g ensures g in landed' <==> Observed(h', g) && Asked(h', g) {
      PutStatusKeeps(h, status, g);
      if g == now && Asked(h, g) {
        var v :| 0 <= v < |h| && h[v].generation == g && h[v].spec.triggerBuild;
        assert h[v].spec == Last(h).spec;
      }
      if Last(h).status.observed == now { assert Observed(h, now); }
    }
  }

  /** Storing any other status changes no answer. */
  lemma OtherStatusLands(h: seq<JobVersion>, landed: seq<nat>, status: JobStatus)
    requires HistoryOk(h) && LandedOk(h, landed) && status.observed == Last(h).status.observed
    ensures LandedOk(PutStatus(h, status), landed)
  {
    assert h[|h| - 1] == Last(h);
    forall g ensures g in landed <==> Observed(PutStatus(h, status), g) && Asked(PutStatus(h, status), g) {
      PutStatusKeeps(h, status, g);
    }
  }

  lemma PutStatusOk(h: seq<JobVersion>, status: JobStatus)
    requires HistoryOk(h) && Last(h).status.observed <= status.observed <= Last(h).generation
    ensures HistoryOk(PutStatus(h, status)) && h <= PutStatus(h, status)
  {
    var h' := PutStatus(h, status);
    assert forall v :: 0 <= v < |h'| ==> h'[v] == Last(h') || (v < |h| && h'[v] == h[v]);
    assert h[|h| - 1] == Last(h);
  }

  lemma LandedKeepsInv(s: State, r: nat)
    requires Inv(s) && r in s.recs && IsCurrent(s.history, s.recs[r].at)
    ensures Inv(DoWrite(s, r, Acked))
  {
    var c := s.recs[r];
    assert ReconOk(s, c);
    PutStatusOk(s.history, c.draft);
    if Decided(c.pc) {
      ObservedLands(s.history, s.landed, c.draft);
    } else {
      OtherStatusLands(s.history, s.landed, c.draft);
    }
    ReconsKept(s, DoWrite(s, r, Acked), r);
    InFlightMoves(s.recs, r, c);
  }

  lemma LostKeepsInv(s: State, r: nat)
    requires Inv(s) && r in s.recs
    ensures Inv(DoWrite(s, r, Rejected))
  {
    ReconsKept(s, DoWrite(s, r, Rejected), r);
    InFlightMoves(s.recs, r, s.recs[r]);
  }

  /** Reconcile `r` starts or goes on; it makes no attempt to create a Build. */
  lemma MoveKeepsInv(s: State, r: nat, c: Recon)
    requires Inv(s) && ReconOk(s, c) && c.attempted == (r in s.recs && s.recs[r].attempted)
    ensures Inv(Goto(s, r, c))
  {
    var s' := Goto(s, r, c);
    ReconKept(s, s', c);
    ReconsKept(s, s', r);
    InFlightMoves(s.recs, r, c);
    assert InFlight(s'.recs) == InFlight(s.recs);
  }

  lemma DecisionOk(s: State, r: nat, outcome: CreateOutcome)
    requires Inv(s) && At(s, r, Triggering)
    ensures var s' := DoTrigger(s, r, outcome);
            && r in s'.recs && ReconOk(s', s'.recs[r]) && s'.recs == s.recs[r := s'.recs[r]]
            && s'.recs[r].attempted == Due(s.history[s.recs[r].at]) && !s.recs[r].attempted
  {
    assert ReconOk(s, s.recs[r]);
  }

  lemma TriggerKeepsInv(s: State, r: nat, outcome: CreateOutcome)
    requires Inv(s) && At(s, r, Triggering)
    ensures Inv(DoTrigger(s, r, outcome))
  {
    var s' := DoTrigger(s, r, outcome);
    DecisionOk(s, r, outcome);
    ReconsKept(s, s', r);
    InFlightMoves(s.recs, r, s'.recs[r]);
    assert r !in InFlight(s.recs);
  }

  lemma StepInv(s: State, a: Action)
    requires Inv(s) && Enabled(s, a)
    ensures Inv(Do(s, a))
  {
    match a
    case Read(r, version) => if !s.history[version].deleting { MoveKeepsInv(s, r, Do(s, a).recs[r]); }
    case Resolve(r, ok, walk) => CallKeepsInv(s, a);
    case Pause(r, ok) => CallKeepsInv(s, a);
    case Trigger(r, outcome) => TriggerKeepsInv(s, r, outcome);
    case Fetch(r, reply) => CallKeepsInv(s, a);
    case Write(r, fate) => if fate.Rejected? { LostKeepsInv(s, r); } else { LandedKeepsInv(s, r); }
    case Report(r, fate) => if fate.Rejected? { LostKeepsInv(s, r); } else { LandedKeepsInv(s, r); }
    case Die(r) => LostKeepsInv(s, r);
    case Edit(spec) => EditKeepsInv(s, spec);
  }

  lemma CallKeepsInv(s: State, a: Action)
    requires Inv(s) && Enabled(s, a) && (a.Resolve? || a.Pause? || a.Fetch?)
    ensures Inv(Do(s, a))
  {
    assert ReconOk(s, s.recs[a.r]);
    MoveKeepsInv(s, a.r, Do(s, a).recs[a.r]);
  }

  lemma {:induction false} RunInv(states: seq<State>, actions: seq<Action>, i: nat)
    requires IsRun(states, actions) && i < |states|
    ensures Inv(states[i])
  {
    if i > 0 {
      RunInv(states, actions, i - 1);
      StepInv(states[i - 1], actions[i - 1]);
    } else {
      assert InFlight(states[0].recs) == {};
    }
  }

  /** Build CRs + failed creates = create attempts = generations triggered + lost status writes + in flight; the
      generations triggered are exactly the observed ones that asked for a Build, once each. */
  lemma TriggerAccounting(states: seq<State>, actions: seq<Action>, i: nat)
    requires IsRun(states, actions) && i < |states|
    ensures var s := states[i];
            && |s.builds| + s.failed == s.attempts == |s.landed| + s.lost + |InFlight(s.recs)|
            && StrictlyIncreasing(s.landed)
            && (forall g :: g in s.landed <==> Observed(s.history, g) && Asked(s.history, g))
  {
    RunInv(states, actions, i);
  }

  /** A due trigger stays due until an edit replaces it or an attempt for it lands: a chain that is not ready,
      a lost write or a crash only defer it. */
  lemma TriggerIsDeferredNotDropped(states: seq<State>, actions: seq<Action>, i: nat)
    requires IsRun(states, actions) && i < |actions| && !actions[i].Edit?
    requires |states[i].history| > 0 && Due(Last(states[i].history))
    ensures var s, s' := states[i], states[i + 1];
            && |s'.history| > 0 && Last(s'.history).generation == Last(s.history).generation
            && (Due(Last(s'.history)) || s'.landed == s.landed + [Last(s.history).generation])
  {
    RunInv(states, actions, i);
    var s, a := states[i], actions[i];
    if a.Write? || a.Report? { assert ReconOk(s, s.recs[a.r]); }
  }

  // ----- No call without its chain -----

  /** Past the resolver: only these make calls. */
  predicate Resolved(pc: PC) {
    pc.Pausing? || pc.Triggering? || Decided(pc)
  }

  ghost predicate HasChain(s: State, c: Recon) {
    c.at < |s.history| && c.walk.Some? && c.walk.value.JobResolves(s.namespace, s.history[c.at].spec.pipelineRef)
  }

  ghost predicate ChainOk(s: State, r: nat) {
    r in s.recs && Resolved(s.recs[r].pc) ==> HasChain(s, s.recs[r])
  }

  lemma StepKeepsChain(s: State, a: Action, r: nat)
    requires Enabled(s, a) && ChainOk(s, r)
    ensures ChainOk(Do(s, a), r)
  {
    StepKeepsHistory(s, a, Do(s, a));
  }

  lemma {:induction false} RunKeepsChain(states: seq<State>, actions: seq<Action>, i: nat, r: nat)
    requires IsRun(states, actions) && i < |states|
    ensures ChainOk(states[i], r)
  {
    if i > 0 {
      RunKeepsChain(states, actions, i - 1, r);
      StepKeepsChain(states[i - 1], actions[i - 1], r);
    }
  }

  /** Pause, unpause and the fetch of the last build reach Concourse only along a ready chain of the Job, which
      the same reconcile has walked. */
  lemma NoCallWithoutChain(states: seq<State>, actions: seq<Action>, i: nat)
    requires IsRun(states, actions) && i < |actions| && (actions[i].Pause? || actions[i].Fetch?)
    ensures actions[i].r in states[i].recs && HasChain(states[i], states[i].recs[actions[i].r])
    ensures var s, c := states[i], states[i].recs[actions[i].r];
            LinksReady(c.walk.value.cluster, s.namespace, s.history[c.at].spec.pipelineRef)
  {
    RunKeepsChain(states, actions, i, actions[i].r);
    var s, c := states[i], states[i].recs[actions[i].r];
    ResolvedLinksReady(c.walk.value, s.namespace, s.history[c.at].spec.pipelineRef);
  }

  // ----- Triggers that create no Build -----

  /** Action `k` of the run tries to create a Build for generation `g`. */
  ghost predicate Attempt(states: seq<State>, actions: seq<Action>, k: nat, g: nat)
    requires k < |actions| < |states|
  {
    && actions[k].Trigger? && At(states[k], actions[k].r, Triggering)
    && var o := states[k].history[states[k].recs[actions[k].r].at];
    o.generation == g && Due(o)
  }

  ghost predicate Tried(states: seq<State>, actions: seq<Action>, i: nat, g: nat)
    requires i <= |actions| < |states|
  {
    exists k :: 0 <= k < i && Attempt(states, actions, k, g)
  }

  /** Every attempt to create a Build for generation `g` failed. */
  ghost predicate AllFailed(states: seq<State>, actions: seq<Action>, i: nat, g: nat)
    requires i <= |actions| < |states|
  {
    forall k :: 0 <= k < i && Attempt(states, actions, k, g) ==> actions[k].outcome.CreateFailed?
  }

  lemma {:induction false} NoBuildIffAllFailed(states: seq<State>, actions: seq<Action>, i: nat, g: nat)
    requires IsRun(states, actions) && i < |states|
    ensures g !in states[i].builds <==> AllFailed(states, actions, i, g)
  {
    if i > 0 {
      NoBuildIffAllFailed(states, actions, i - 1, g);
      var s, a := states[i - 1], actions[i - 1];
      assert Attempt(states, actions, i - 1, g) && !a.outcome.CreateFailed? ==> states[i].builds == s.builds + [g];
      assert AllFailed(states, actions, i, g) <==>
               AllFailed(states, actions, i - 1, g) && (Attempt(states, actions, i - 1, g) ==> a.outcome.CreateFailed?);
    }
  }

  /** Whatever landed or is about to was attempted. */
  ghost predicate AllTried(states: seq<State>, actions: seq<Action>, i: nat)
    requires i <= |actions| < |states|
  {
    && (forall g <- states[i].landed :: Tried(states, actions, i, g))
    && (forall r <- states[i].recs :: states[i].recs[r].attempted ==> TriedAt(states, actions, i, states[i].recs[r].at))
  }

  ghost predicate TriedAt(states: seq<State>, actions: seq<Action>, i: nat, at: nat)
    requires i <= |actions| < |states|
  {
    at < |states[i].history| && Tried(states, actions, i, states[i].history[at].generation)
  }

  lemma TriedLasts(states: seq<State>, actions: seq<Action>, i: nat, g: nat)
    requires i < |actions| < |states| && Tried(states, actions, i, g)
    ensures Tried(states, actions, i + 1, g)
  {
    var k :| 0 <= k < i && Attempt(states, actions, k, g);
    assert 0 <= k < i + 1 && Attempt(states, actions, k, g);
  }

  lemma StepKeepsHistory(s: State, a: Action, s': State)
    requires Enabled(s, a) && s' == Do(s, a)
    ensures s.history <= s'.history
  {}

  /** Only a trigger step starts an attempt. */
  lemma AttemptStarts(s: State, a: Action, s': State, r: nat)
    requires Enabled(s, a) && s' == Do(s, a) && r in s'.recs && s'.recs[r].attempted
    ensures r in s.recs && s'.recs[r].at == s.recs[r].at
    ensures s.recs[r].attempted || (a.Trigger? && a.r == r && At(s, r, Triggering) && Due(s.history[s.recs[r].at]))
  {}

  /** Only a write lands one. */
  lemma AttemptLands(s: State, a: Action, s': State)
    requires Enabled(s, a) && s' == Do(s, a) && s'.landed != s.landed
    ensures a.Write? || a.Report?
    ensures s.recs[a.r].attempted && s.recs[a.r].at < |s.history|
    ensures s'.landed == s.landed + [s.history[s.recs[a.r].at].generation]
  {}

  lemma {:induction false} LandedWasTried(states: seq<State>, actions: seq<Action>, i: nat)
    requires IsRun(states, actions) && i < |states|
    ensures AllTried(states, actions, i)
  {
    if i > 0 {
      LandedWasTried(states, actions, i - 1);
      var s, a, s' := states[i - 1], actions[i - 1], states[i];
      StepKeepsHistory(s, a, s');
      forall g <- s'.landed ensures Tried(states, actions, i, g) {
        if s'.landed != s.landed { AttemptLands(s, a, s'); }
        assert Tried(states, actions, i - 1, g);
        TriedLasts(states, actions, i - 1, g);
      }
      forall r <- s'.recs | s'.recs[r].attempted ensures TriedAt(states, actions, i, s'.recs[r].at) {
        AttemptStarts(s, a, s', r);
        var g := s.history[s'.recs[r].at].generation;
        if s.recs[r].attempted {
          TriedLasts(states, actions, i - 1, g);
        } else {
          assert Attempt(states, actions, i - 1, g);
        }
      }
    }
  }

  /** A trigger that was consumed was attempted, and it has no Build if and only if every attempt failed: also
      those whose status write was lost. */
  lemma ConsumedWithoutBuildIff(states: seq<State>, actions: seq<Action>, i: nat, g: nat)
    requires IsRun(states, actions) && i < |states| && g in states[i].landed
    ensures Tried(states, actions, i, g)
    ensures g !in states[i].builds <==> AllFailed(states, actions, i, g)
  {
    LandedWasTried(states, actions, i);
    NoBuildIffAllFailed(states, actions, i, g);
  }

  /** A failed create consumes the trigger: once its status is stored, the trigger is no longer due, and the
      attempt has added no Build. */
  lemma FailedCreateConsumesTrigger(s: State, r: nat, reply: FetchReply)
    requires Inv(s) && At(s, r, Triggering) && IsCurrent(s.history, s.recs[r].at) && Due(Last(s.history))
    ensures var s1 := Do(s, Trigger(r, CreateFailed));
            && Enabled(s1, Fetch(r, reply))
            && var s2 := Do(s1, Fetch(r, reply));
            && Enabled(s2, Write(r, Acked))
            && var s3 := Do(s2, Write(r, Acked));
            && s3.builds == s.builds && !Due(Last(s3.history)) && Last(s.history).generation in s3.landed
  {
    assert ReconOk(s, s.recs[r]);
    var s3 := Do(Do(Do(s, Trigger(r, CreateFailed)), Fetch(r, reply)), Write(r, Acked));
    assert s3.landed[|s.landed|] == Last(s.history).generation;
  }

  lemma Extend(states: seq<State>, actions: seq<Action>, a: Action) returns (states': seq<State>, actions': seq<Action>)
    requires IsRun(states, actions) && Enabled(Last(states), a)
    ensures IsRun(states', actions') && Last(states') == Do(Last(states), a) && actions' == actions + [a]
  {
    states', actions' := states + [Do(Last(states), a)], actions + [a];
  }

  lemma TriggerIsReached() returns (states: seq<State>, actions: seq<Action>)
    ensures IsRun(states, actions)
    ensures var s := Last(states);
            && At(s, 0, Triggering) && s.recs.Keys == {0} && IsCurrent(s.history, s.recs[0].at)
            && Last(s.history).generation == 1 && Due(Last(s.history)) && s.landed == [] && s.builds == []
            && !s.recs[0].attempted
  {
    var walk := ReadyWalk("ns", "pipeline", "team", "url");
    var v := Object(1, false, false, JobSpec("pipeline", "", false, true), EMPTY_STATUS);
    states, actions := [State("ns", [v], map[], 0, [], 0, [], 0)], [];
    states, actions := Extend(states, actions, Read(0, 0));
    states, actions := Extend(states, actions, Resolve(0, true, walk));
    states, actions := Extend(states, actions, Pause(0, true));
  }

  /** A run that ends with a consumed trigger and no Build. */
  lemma ConsumedWithoutBuild() returns (states: seq<State>, actions: seq<Action>)
    ensures IsRun(states, actions)
    ensures var s := Last(states);
            s.landed == [1] && s.builds == [] && s.recs == map[] && |s.history| > 0 && !Due(Last(s.history))
  {
    states, actions := TriggerIsReached();
    states, actions := Extend(states, actions, Trigger(0, CreateFailed));
    states, actions := Extend(states, actions, Fetch(0, NoBuild));
    states, actions := Extend(states, actions, Write(0, Acked));
    assert Last(states).recs == map[];
  }
}
