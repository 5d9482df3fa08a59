/** The guarantees of the Build lifecycle over every run: any number of reconciles, stale reads,
    conflicting, lost and unacknowledged writes, lost create replies and crashes. */
module BuildTheorems {
  import opened ApiServer
  import opened BuildStatuses
  import opened BuildProtocol
  import opened BuildInvariant
  import opened Resolver

  /** The stored ID is written at most once, for a build of one server, and a terminal status is frozen as a
      whole: whatever the servers that the reconciles have asked. */
  lemma IdAndEndAreFinal(states: seq<State>, actions: seq<Action>, i: nat, j: nat)
    requires IsRun(states, actions) && i <= j < |states|
    ensures |states[i].history| > 0 && |states[j].history| > 0
    ensures var a, b := states[i].Current().status, states[j].Current().status;
            && (a.id != 0 ==> b.id == a.id && states[j].Stored() == states[i].Stored())
            && (a.phase in {Succeeded, Failed, Errored, Aborted} ==> b == a)
  {
    RunInv(states, actions, i);
    RunInv(states, actions, j);
    RunAdvances(states, actions, i, j);
    HomeStays(states, actions, i, j);
    var s, s' := states[i], states[j];
    assert s'.history[|s.history| - 1] == s.Current();
    assert Precedes(s'.history[|s.history| - 1], s'.Current());
  }

  lemma StepHome(s: State, a: Action, s': State)
    requires Inv(s) && IsStep(s, a, s') && s.Current().status.id != 0
    ensures s'.atc.home == s.atc.home
  {
    if a.Write? || a.Report? { WriteHome(s, a, s'); } else { OtherStepHome(s, a, s'); }
  }

  /** Only a reconcile that read a version without an ID can hold a build of its own. */
  lemma WriteHome(s: State, a: Action, s': State)
    requires HistoryOk(s.history, s.lastEdit, s.atc) && s.Current().status.id != 0 && IsStep(s, a, s') && (a.Write? || a.Report?)
    requires ReconOk(s.history, s.atc, s.recs[a.r])
    ensures s'.atc.home == s.atc.home
  {}

  lemma OtherStepHome(s: State, a: Action, s': State)
    requires IsStep(s, a, s') && !a.Write? && !a.Report?
    ensures s'.atc.home == s.atc.home
  {
    if a.Create? { assert s' == DoCreate(s, a.r, a.outcome, a.b); } else if !IsOutside(a) { QuietStepHome(s, a, s'); }
  }

  lemma QuietStepHome(s: State, a: Action, s': State)
    requires IsStep(s, a, s') && !IsOutside(a) && !a.Write? && !a.Report? && !a.Create?
    ensures s'.atc.home == s.atc.home
  {}

  lemma {:induction false} HomeStays(states: seq<State>, actions: seq<Action>, i: nat, j: nat)
    requires IsRun(states, actions) && i <= j < |states|
    ensures |states[i].history| > 0
    ensures states[i].Current().status.id != 0 ==> states[j].atc.home == states[i].atc.home
  {
    RunInv(states, actions, i);
    if i < j && states[i].Current().status.id != 0 {
      HomeStays(states, actions, i, j - 1);
      RunInv(states, actions, j - 1);
      RunAdvances(states, actions, i, j - 1);
      var s, m := states[i], states[j - 1];
      assert m.history[|s.history| - 1] == s.Current();
      assert Precedes(m.history[|s.history| - 1], m.Current());
      StepHome(m, actions[j - 1], states[j]);
    }
  }

  /** Every stored version is coherent (conditions, times, duration, ID and observed generation agree) and
      truthful: name, URL and start are those of the create reply for its build, and phase, end and creator
      those of one report about a build with its ID. Complete is True exactly for the four final phases. */
  lemma StoredIsCoherentAndTruthful(states: seq<State>, actions: seq<Action>, i: nat, v: nat)
    requires IsRun(states, actions) && i < |states| && v < |states[i].history|
    ensures var s, o := states[i], states[i].history[v];
            && Coherent(o.status)
            && Truthful(o.status, s.atc)
            && o.status.observed <= o.generation
            && (o.status.phase in {Succeeded, Failed, Errored, Aborted} <==>
                  "Complete" in o.status.conds && o.status.conds["Complete"].status == CondTrue)
  {
    RunInv(states, actions, i);
    assert Good(states[i].history[v].status, states[i].atc);
    assert ObservedOk(states[i].history[v]);
  }

  /** The start time is the one in the create reply, so a Build has a duration exactly when its end is
      known and the create reply already carried a start time. */
  lemma DurationNeedsEarlyStart(states: seq<State>, actions: seq<Action>, i: nat)
    requires IsRun(states, actions) && i < |states|
    ensures |states[i].history| > 0
    ensures var s := states[i];
            var st := s.Current().status;
            st.duration.Some? <==>
              st.end.Some? && s.Stored() in s.atc.replies && s.atc.replies[s.Stored()].startTime > 0
  {
    RunInv(states, actions, i);
    var s := states[i];
    var st := s.Current().status;
    assert Good(st, s.atc);
    assert forall ref <- s.atc.replies :: ref in s.atc.server && ref.id > 0;
  }

  /** The reconciles that created a build whose ID is not stored yet. */
  function Holders(s: State): set<nat> {
    set r | r in s.recs && s.recs[r].made.Some?
  }

  /** Builds created for this Build, on all servers = stored + orphaned + in flight, and no build is two of these. */
  lemma BuildConservation(states: seq<State>, actions: seq<Action>, i: nat)
    requires IsRun(states, actions) && i < |states|
    ensures |states[i].history| > 0
    ensures var s := states[i];
            |s.atc.replies| == (if s.Current().status.id != 0 then 1 else 0) + |s.orphans| + |Holders(s)|
  {
    RunInv(states, actions, i);
    var s := states[i];
    assert Good(s.Current().status, s.atc);
    var stored := if s.Current().status.id != 0 then {s.Stored()} else {};
    var held := HeldRefs(s, Holders(s));
    HeldSize(s, Holders(s));
    RepliesAreAccounted(s, stored, held);
    assert stored !! s.orphans !! held;
    assert |s.atc.replies.Keys| == |stored| + |s.orphans| + |held|;
  }

  lemma RepliesAreAccounted(s: State, stored: set<BuildRef>, held: set<BuildRef>)
    requires Inv(s) && stored == (if s.Current().status.id != 0 then {s.Stored()} else {})
    requires held == HeldRefs(s, Holders(s))
    ensures s.atc.replies.Keys == stored + s.orphans + held
  {
    assert Good(s.Current().status, s.atc);
    forall ref ensures ref in held <==> exists r :: InFlight(s.recs, r, ref) {
      if r :| InFlight(s.recs, r, ref) { assert r in Holders(s); }
    }
    forall ref ensures ref in s.atc.replies <==> ref in stored + s.orphans + held {
      if ref in s.atc.replies { assert ref in s.atc.server && ref.id > 0; }
    }
  }

  ghost function HeldRefs(s: State, rs: set<nat>): set<BuildRef>
    requires rs <= Holders(s)
  {
    set r | r in rs :: s.recs[r].made.value.Ref()
  }

  lemma {:induction false} HeldSize(s: State, rs: set<nat>)
    requires |s.history| > 0 && Accounted(s.Stored(), s.atc.replies, s.orphans, s.recs) && rs <= Holders(s)
    ensures |HeldRefs(s, rs)| == |rs|
    decreases rs
  {
    if rs != {} {
      var r :| r in rs;
      var ref := s.recs[r].made.value.Ref();
      HeldSize(s, rs - {r});
      assert InFlight(s.recs, r, ref);
      forall q <- rs - {r} ensures s.recs[q].made.value.Ref() != ref {
        assert InFlight(s.recs, q, s.recs[q].made.value.Ref());
      }
      assert HeldRefs(s, rs) == HeldRefs(s, rs - {r}) + {ref};
    }
  }

  /** An orphan stays an orphan: no stored version names it, now or later. */
  lemma OrphansAreNeverStored(states: seq<State>, actions: seq<Action>, i: nat, j: nat, ref: BuildRef, v: nat)
    requires IsRun(states, actions) && i <= j < |states|
    requires ref in states[i].orphans && v < |states[j].history|
    ensures BuildRef(states[j].atc.home, states[j].history[v].status.id) != ref
  {
    RunInv(states, actions, j);
    RunAdvances(states, actions, i, j);
    var s := states[j];
    assert Precedes(s.history[v], s.Current());
    assert ref in s.atc.server && ref.id > 0;
  }

  /** AbortBuild is only called if a version asked for it; and a reconcile that read such a version has called it
      for the build that its walk has led it to. */
  lemma AbortsAreRequested(states: seq<State>, actions: seq<Action>, i: nat)
    requires IsRun(states, actions) && i < |states|
    ensures var s := states[i];
            && (s.atc.aborts != {} ==> exists v :: 0 <= v < |s.history| && s.history[v].spec.abort)
            && (forall r :: At(s, r, Writing) ==>
                  && s.recs[r].at < |s.history|
                  && (s.history[s.recs[r].at].spec.abort ==> BuildRef(s.recs[r].site, s.recs[r].draft.id) in s.atc.aborts))
  {
    RunInv(states, actions, i);
    forall r | At(states[i], r, Writing) ensures ReconOk(states[i].history, states[i].atc, states[i].recs[r]) {}
  }

  // ----- Concrete runs -----

  lemma Extend(states: seq<State>, actions: seq<Action>, a: Action) returns (states': seq<State>, actions': seq<Action>)
    requires IsRun(states, actions) && Last(states).WellFormed() && Enabled(Last(states), a)
    ensures IsRun(states', actions') && Last(states') == Do(Last(states), a) && actions' == actions + [a]
  {
    states', actions' := states + [Do(Last(states), a)], actions + [a];
  }

  /** A build that has not started. */
  const CREATED := AtcBuild("url", 1, "1", "/builds/1", Pending, 0, 0, None)

  const FIRST_VERSION: BuildVersion := Object(1, false, false, BuildSpec(Some("job"), false), EMPTY_STATUS)

  /** The state in which the first reconcile is about to ask the resolver. */
  function AfterFindJob(): State {
    State("ns", [FIRST_VERSION], false, 0, 0, Atc(map[], {}, map[], {}, ""), {},
          map[0 := Recon(Resolving(Job("job", "pipeline")), 0, "", None, EMPTY_STATUS)], false, false)
  }

  lemma JobIsFound() returns (states: seq<State>, actions: seq<Action>)
    ensures IsRun(states, actions) && Last(states) == AfterFindJob()
  {
    var s := State("ns", [FIRST_VERSION], false, 0, 0, Atc(map[], {}, map[], {}, ""), {}, map[], true, false);
    states, actions := [s], [];
    states, actions := Extend(states, actions, Begin(0));
    states, actions := Extend(states, actions, Read(0, 0));
    states, actions := Extend(states, actions, FindJob(0, JobFound(Job("job", "pipeline"))));
  }

  /** The state in which it has created a build. */
  function AfterCreate(): State {
    AfterFindJob().(atc := AtcAt(CREATED), recs := map[0 := Recon(Aborting, 0, "url", Some(CREATED), EMPTY_STATUS)])
  }

  lemma BuildIsCreated() returns (states: seq<State>, actions: seq<Action>)
    ensures IsRun(states, actions) && Last(states) == AfterCreate()
  {
    var walk := ReadyWalk("ns", "pipeline", "team", "url");
    states, actions := JobIsFound();
    states, actions := Extend(states, actions, Resolve(0, true, walk));
    states, actions := Extend(states, actions, Create(0, Made, CREATED));
  }

  /** Concourse as it is when the created build has come to `b`. */
  function AtcAt(b: AtcBuild): Atc {
    Atc(map[CREATED.Ref() := b], {CREATED, b}, map[CREATED.Ref() := CREATED], {}, "")
  }

  function TrackedStatus(b: AtcBuild): BuildStatus {
    Concluded(WithRefresh(WithCreated(EMPTY_STATUS, CREATED), Some(b)), 1)
  }

  lemma StatusIsDrafted(states: seq<State>, actions: seq<Action>, b: AtcBuild) returns (states': seq<State>, actions': seq<Action>)
    requires IsRun(states, actions) && Last(states) == AfterCreate().(atc := AtcAt(b))
    ensures IsRun(states', actions')
    ensures Last(states') == AfterCreate().(atc := AtcAt(b), recs := map[0 := Recon(Writing, 0, "url", Some(CREATED), TrackedStatus(b))])
  {
    states', actions' := Extend(states, actions, Abort(0));
    states', actions' := Extend(states', actions', Refresh(0, true));
  }

  /** The rest of the reconcile that created the build and then found it at `b`. */
  lemma StatusIsWritten(states: seq<State>, actions: seq<Action>, b: AtcBuild) returns (states': seq<State>, actions': seq<Action>)
    requires IsRun(states, actions) && Last(states) == AfterCreate().(atc := AtcAt(b))
    ensures IsRun(states', actions')
    ensures Last(states') ==
            AfterCreate().(atc := AtcAt(b).(home := "url"),
                           history := [FIRST_VERSION, FIRST_VERSION.(status := TrackedStatus(b))],
                           recs := if Terminal(b.phase) then map[] else map[0 := Recon(Spawning, 1, "url", None, TrackedStatus(b))])
  {
    states', actions' := StatusIsDrafted(states, actions, b);
    states', actions' := Extend(states', actions', Write(0, Acked));
    assert EMPTY_STATUS.id != TrackedStatus(b).id;
  }

  /** A run that ends with a finished Build without a duration, although Concourse knows both times. */
  lemma FinishedWithoutDuration() returns (states: seq<State>, actions: seq<Action>)
    ensures IsRun(states, actions)
    ensures var s := Last(states);
            && |s.history| > 0 && s.Stored() in s.atc.server
            && Terminal(s.Current().status.phase) && s.Current().status.end.Some?
            && s.atc.server[s.Stored()].startTime > 0
            && s.Current().status.duration.None?
  {
    var b := CREATED.(phase := Succeeded, startTime := 10, endTime := 20);
    states, actions := BuildIsCreated();
    states, actions := Extend(states, actions, Progress(b));
    states, actions := StatusIsWritten(states, actions, b);
  }
}
