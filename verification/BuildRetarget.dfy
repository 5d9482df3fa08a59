/** What a Build reconcile does when its walk ends at another Concourse server than an earlier one: it uses the
    stored ID there. Exactly when that moves the stored phase back or aborts a stranger's build
    (internal/controller/build_controller.go). */
module BuildRetarget {
  import opened ApiServer
  import opened BuildStatuses
  import opened BuildProtocol
  import opened BuildInvariant
  import opened BuildCalls
  import opened BuildTheorems
  import opened Resolver

  // ----- Where a draft comes from -----

  /** Action `k` is the refresh that made the draft reconcile `r` holds at state `i`. */
  ghost predicate Drafted(states: seq<State>, actions: seq<Action>, k: nat, i: nat, r: nat)
    requires k < i <= |actions| < |states|
  {
    && actions[k].Refresh? && actions[k].r == r && At(states[k], r, Refreshing)
    && states[k].recs[r].at < |states[k].history|
    && r in states[k + 1].recs && r in states[i].recs && states[i].recs[r] == states[k + 1].recs[r]
    && NotBegun(actions, k, i, r)
  }

  lemma WritingStays(s: State, a: Action, s': State, r: nat)
    requires IsStep(s, a, s') && (a.Resolve? || a.Abort?) && At(s', r, Writing)
    ensures r in s.recs && s'.recs[r] == s.recs[r]
  {}

  lemma WritingStaysAtCreate(s: State, a: Action, s': State, r: nat)
    requires IsStep(s, a, s') && a.Create? && At(s', r, Writing)
    ensures r in s.recs && s'.recs[r] == s.recs[r]
  {}

  /** Only a refresh brings a reconcile to its status write. */
  lemma WritingIsEntered(s: State, a: Action, s': State, r: nat)
    requires IsStep(s, a, s') && At(s', r, Writing)
    ensures (a.Refresh? && a.r == r) || (r in s.recs && s'.recs[r] == s.recs[r] && a != Begin(r))
  {
    if IsOutside(a) {
      OutsideStays(s, a, s', r);
    } else if Ends(a) {
      EndMove(s, a, s', r);
    } else if a.Read? {
      ReadMove(s, a, s', r);
    } else if a.FindJob? {
      FindMove(s, a, s', r);
    } else if a.Refresh? {
      CallMove(s, a, s', r);
    } else if a.Create? {
      WritingStaysAtCreate(s, a, s', r);
    } else {
      WritingStays(s, a, s', r);
    }
  }

  lemma {:induction false} DraftHasItsRefresh(states: seq<State>, actions: seq<Action>, i: nat, r: nat) returns (k: nat)
    requires IsRun(states, actions) && i < |states| && At(states[i], r, Writing)
    ensures k < i && Drafted(states, actions, k, i, r)
  {
    assert i > 0;
    var s, a := states[i - 1], actions[i - 1];
    assert IsStep(s, a, states[i]);
    WritingIsEntered(s, a, states[i], r);
    if a.Refresh? && a.r == r {
      k := i - 1;
      assert NotBegun(actions, k, i, r);
    } else {
      k := DraftHasItsRefresh(states, actions, i - 1, r);
      assert NotBegun(actions, k, i, r);
    }
  }

  // ----- When the stored phase moves back -----

  /** A phase that could not follow. */
  predicate Behind(p: Phase, q: Phase) {
    !NotAfter(q, p)
  }

  /** The server that reconcile `r` asked at its refresh `k` held, under the ID, a build behind `phase`. */
  ghost predicate ReportedBehind(states: seq<State>, actions: seq<Action>, k: nat, i: nat, r: nat, phase: Phase)
    requires k < i <= |actions| < |states|
  {
    && Drafted(states, actions, k, i, r) && actions[k].found
    && var ref := Target(states[k].history, states[k].recs[r]);
    ref in states[k].atc.server && Behind(states[k].atc.server[ref].phase, phase)
  }

  /** What a refresh leaves as the phase of the draft. */
  lemma RefreshedPhase(s: State, r: nat, found: bool, s': State)
    requires Inv(s) && IsStep(s, Refresh(r, found), s')
    ensures r in s.recs && r in s'.recs && s.recs[r].at < |s.history| && s'.recs[r].at == s.recs[r].at
    ensures found ==> Target(s.history, s.recs[r]) in s.atc.server
    ensures s'.recs[r].draft.phase ==
            if found then s.atc.server[Target(s.history, s.recs[r])].phase else s.history[s.recs[r].at].status.phase
  {
    WorkingIdIsSet(s, r);
  }

  lemma HistoryKept(s: State, a: Action, s': State)
    requires IsStep(s, a, s') && !a.Write? && !a.Report? && !a.Edit? && !a.MarkDeleting?
    ensures s'.history == s.history
  {
    if Ends(a) { HistoryKeptAtEnd(s, a, s'); }
  }

  lemma HistoryKeptAtEnd(s: State, a: Action, s': State)
    requires IsStep(s, a, s') && (a.ReadGone? || a.Spawn? || a.Die?)
    ensures s'.history == s.history
  {}

  /** The status write of the action is stored. */
  predicate Lands(a: Action) {
    a.Write? && !a.fate.Rejected?
  }

  /** Only a stored status write changes the stored phase. */
  lemma PhaseKept(s: State, a: Action, s': State)
    requires Inv(s) && IsStep(s, a, s') && !Lands(a) && |s'.history| > 0
    ensures s'.Current().status.phase == s.Current().status.phase
  {
    if a.Report? {
      assert ReconOk(s.history, s.atc, s.recs[a.r]);
    } else if !a.Write? && !a.Edit? && !a.MarkDeleting? {
      HistoryKept(s, a, s');
    }
  }

  lemma PhaseLands(s: State, a: Action, s': State)
    requires Inv(s) && IsStep(s, a, s') && Lands(a) && |s'.history| > 0
    ensures At(s, a.r, Writing) && IsCurrent(s.history, s.recs[a.r].at)
    ensures s'.Current().status.phase == s.recs[a.r].draft.phase
  {}

  lemma DraftedPhase(states: seq<State>, actions: seq<Action>, k: nat, i: nat, r: nat)
    requires IsRun(states, actions) && k < i <= |actions| && Drafted(states, actions, k, i, r)
    ensures var m, c := states[k], states[i].recs[r];
            && (actions[k].found ==> Target(m.history, m.recs[r]) in m.atc.server)
            && c.at < |m.history| && m.history <= states[i].history
            && c.draft.phase == if actions[k].found then m.atc.server[Target(m.history, m.recs[r])].phase
                                else m.history[c.at].status.phase
  {
    RunInv(states, actions, k);
    RunAdvances(states, actions, k, i);
    assert IsStep(states[k], actions[k], states[k + 1]);
    RefreshedPhase(states[k], r, actions[k].found, states[k + 1]);
  }

  /** A draft of the current version is behind it exactly if its refresh was told so. */
  lemma DraftIsBehindIff(states: seq<State>, actions: seq<Action>, k: nat, i: nat, r: nat)
    requires IsRun(states, actions) && k < i <= |actions| && Drafted(states, actions, k, i, r)
    requires IsCurrent(states[i].history, states[i].recs[r].at)
    ensures |states[i].history| > 0
    ensures Behind(states[i].recs[r].draft.phase, states[i].Current().status.phase) <==>
              ReportedBehind(states, actions, k, i, r, states[i].Current().status.phase)
  {
    DraftedPhase(states, actions, k, i, r);
    assert states[i].history[states[i].recs[r].at] == states[i].Current();
  }

  /** Over every run: the stored phase moves back if and only if a status write lands whose reconcile was told,
      by the server its walk had ended at, of a build under the stored ID that is behind the stored phase. */
  lemma MovesBackIff(states: seq<State>, actions: seq<Action>, i: nat)
    requires IsRun(states, actions) && i < |actions|
    ensures |states[i].history| > 0 && |states[i + 1].history| > 0
    ensures var phase, phase' := states[i].Current().status.phase, states[i + 1].Current().status.phase;
            Behind(phase', phase) <==>
              Lands(actions[i]) && exists k :: 0 <= k < i && ReportedBehind(states, actions, k, i, actions[i].r, phase)
  {
    RunInv(states, actions, i);
    RunInv(states, actions, i + 1);
    if Lands(actions[i]) {
      LandedMovesBackIff(states, actions, i);
    } else {
      PhaseKept(states[i], actions[i], states[i + 1]);
    }
  }

  lemma LandedMovesBackIff(states: seq<State>, actions: seq<Action>, i: nat)
    requires IsRun(states, actions) && i < |actions| && Lands(actions[i])
    requires Inv(states[i]) && |states[i + 1].history| > 0
    ensures var phase := states[i].Current().status.phase;
            Behind(states[i + 1].Current().status.phase, phase) <==>
              exists k :: 0 <= k < i && ReportedBehind(states, actions, k, i, actions[i].r, phase)
  {
    var phase, r := states[i].Current().status.phase, actions[i].r;
    PhaseLands(states[i], actions[i], states[i + 1]);
    var k := DraftHasItsRefresh(states, actions, i, r);
    DraftIsBehindIff(states, actions, k, i, r);
    if k' :| 0 <= k' < i && ReportedBehind(states, actions, k', i, r, phase) {
      DraftIsBehindIff(states, actions, k', i, r);
    }
  }

  // ----- When a stranger's build is aborted -----

  /** The target of a reconcile that is about to abort was not created for this Build. */
  ghost predicate NotOurs(s: State, c: Recon)
    requires c.at < |s.history|
  {
    Target(s.history, c) !in s.atc.replies
  }

  /** The walk has ended at another server than the stored build's, and the ID there is none of the builds that
      this Build has lost or is about to store. */
  ghost predicate Strayed(s: State, c: Recon)
    requires c.at < |s.history|
  {
    var ref := Target(s.history, c);
    c.made.None? && c.site != s.atc.home && ref !in s.orphans && forall q :: !InFlight(s.recs, q, ref)
  }

  lemma NotOursIffStrayed(s: State, r: nat)
    requires Inv(s) && At(s, r, Aborting) && s.recs[r].at < |s.history|
    ensures NotOurs(s, s.recs[r]) <==> Strayed(s, s.recs[r])
  {
    var c := s.recs[r];
    var ref := Target(s.history, c);
    assert ReconOk(s.history, s.atc, c);
    if c.made.Some? {
      assert InFlight(s.recs, r, ref);
    } else {
      assert Precedes(s.history[c.at], s.Current());
      assert Good(s.history[|s.history| - 1].status, s.atc);
      assert ref == s.Stored() <==> c.site == s.atc.home;
    }
  }

  /** Over every run: an abort is for a build that was not created for this Build if and only if the reconcile has
      strayed. */
  lemma AbortIsForeignIff(states: seq<State>, actions: seq<Action>, i: nat)
    requires IsRun(states, actions) && i < |actions| && actions[i].Abort?
    ensures var s, r := states[i], actions[i].r;
            && r in s.recs && s.recs[r].at < |s.history|
            && (NotOurs(s, s.recs[r]) <==> Strayed(s, s.recs[r]))
  {
    RunInv(states, actions, i);
    assert IsStep(states[i], actions[i], states[i + 1]);
    NotOursIffStrayed(states[i], actions[i].r);
  }

  // ----- A run in which both happen -----

  const MINE := AtcBuild("a", 1, "1", "/builds/1", Started, 10, 0, None)

  /** A build of somebody else on another server, with the same ID. */
  const THEIRS := AtcBuild("b", 1, "7", "/builds/1", Pending, 0, 0, None)

  const ASKED: BuildVersion := Object(1, false, false, BuildSpec(Some("job"), true), EMPTY_STATUS)

  const JOB := Job("job", "pipeline")

  function FirstStatus(): BuildStatus {
    Concluded(WithRefresh(WithCreated(EMPTY_STATUS, MINE), Some(MINE)), 1)
  }

  function SecondStatus(): BuildStatus {
    Concluded(WithRefresh(FirstStatus(), Some(THEIRS)), 1)
  }

  function Servers(aborts: set<BuildRef>): Atc {
    Atc(map[THEIRS.Ref() := THEIRS, MINE.Ref() := MINE], {THEIRS, MINE}, map[MINE.Ref() := MINE], aborts, "")
  }

  /** Nothing created yet. */
  const STRANGE := Atc(map[THEIRS.Ref() := THEIRS], {THEIRS}, map[], {}, "")

  lemma ResolvedToOne() returns (states: seq<State>, actions: seq<Action>)
    ensures IsRun(states, actions)
    ensures Last(states) ==
            State("ns", [ASKED], false, 0, 0, STRANGE, {}, map[0 := Recon(Creating, 0, "a", None, EMPTY_STATUS)], false, false)
  {
    var walk := ReadyWalk("ns", "pipeline", "team", "a");
    states, actions := [State("ns", [ASKED], false, 0, 0, STRANGE, {}, map[], true, false)], [];
    states, actions := Extend(states, actions, Begin(0));
    states, actions := Extend(states, actions, Read(0, 0));
    states, actions := Extend(states, actions, FindJob(0, JobFound(JOB)));
    states, actions := Extend(states, actions, Resolve(0, true, walk));
  }

  lemma CreatedOnOneServer() returns (states: seq<State>, actions: seq<Action>)
    ensures IsRun(states, actions)
    ensures Last(states) ==
            State("ns", [ASKED], false, 0, 0, Servers({}), {},
                  map[0 := Recon(Aborting, 0, "a", Some(MINE), EMPTY_STATUS)], false, false)
  {
    states, actions := ResolvedToOne();
    states, actions := Extend(states, actions, Create(0, Made, MINE));
  }

  lemma DraftedOnOneServer() returns (states: seq<State>, actions: seq<Action>)
    ensures IsRun(states, actions)
    ensures Last(states) ==
            State("ns", [ASKED], false, 0, 0, Servers({MINE.Ref()}), {},
                  map[0 := Recon(Writing, 0, "a", Some(MINE), FirstStatus())], false, false)
  {
    states, actions := CreatedOnOneServer();
    states, actions := Extend(states, actions, Abort(0));
    states, actions := Extend(states, actions, Refresh(0, true));
  }

  lemma StoredOnOneServer() returns (states: seq<State>, actions: seq<Action>)
    ensures IsRun(states, actions)
    ensures Last(states) == Tracked(map[0 := Recon(Spawning, 1, "a", None, FirstStatus())], false)
  {
    states, actions := DraftedOnOneServer();
    states, actions := Extend(states, actions, Write(0, Acked));
    assert EMPTY_STATUS.id != FirstStatus().id;
  }

  function Tracked(recs: map<nat, Recon>, queued: bool): State {
    State("ns", [ASKED, ASKED.(status := FirstStatus())], false, 0, 0, Servers({MINE.Ref()}).(home := "a"), {}, recs, queued, false)
  }

  lemma TimerFires() returns (states: seq<State>, actions: seq<Action>)
    ensures IsRun(states, actions) && Last(states) == Tracked(map[], true)
  {
    states, actions := StoredOnOneServer();
    states, actions := Extend(states, actions, Spawn(0));
    states, actions := Extend(states, actions, Fire);
  }

  lemma ResolvedToAnother() returns (states: seq<State>, actions: seq<Action>)
    ensures IsRun(states, actions)
    ensures Last(states) == Tracked(map[0 := Recon(Aborting, 1, "b", None, EMPTY_STATUS)], false)
  {
    var walk := ReadyWalk("ns", "pipeline", "team", "b");
    states, actions := TimerFires();
    states, actions := Extend(states, actions, Begin(0));
    states, actions := Extend(states, actions, Read(0, 1));
    states, actions := Extend(states, actions, FindJob(0, JobFound(JOB)));
    states, actions := Extend(states, actions, Resolve(0, true, walk));
  }

  lemma DraftedFromAnother() returns (states: seq<State>, actions: seq<Action>)
    ensures IsRun(states, actions)
    ensures Last(states) ==
            Tracked(map[0 := Recon(Writing, 1, "b", None, SecondStatus())], false).(
              atc := Servers({MINE.Ref(), THEIRS.Ref()}).(home := "a"))
  {
    states, actions := ResolvedToAnother();
    states, actions := Extend(states, actions, Abort(0));
    states, actions := Extend(states, actions, Refresh(0, true));
  }

  /** After the chain was pointed at another server, the stored phase goes from started back to pending, and a
      stranger's build is aborted. */
  lemma RetargetedBuild() returns (states: seq<State>, actions: seq<Action>)
    ensures IsRun(states, actions)
    ensures var s := Last(states);
            && |s.history| == 3 && s.history[1].status.phase == Started && s.history[2].status.phase == Pending
            && s.history[2].status.id == s.history[1].status.id != 0
            && exists ref <- s.atc.aborts :: ref !in s.atc.replies
  {
    states, actions := DraftedFromAnother();
    states, actions := Extend(states, actions, Write(0, Acked));
    assert FirstStatus().phase != SecondStatus().phase;
    assert THEIRS.Ref() in Last(states).atc.aborts;
  }
}
