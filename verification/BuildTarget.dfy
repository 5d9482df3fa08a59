/** The Build lifecycle when every successful walk of the Build ends at the same Concourse server: the stored phase
    never moves back and is the phase of that server. And exactly what happens when walks end elsewhere, because a
    reference or an Instance URL along the chain was edited (internal/controller/build_controller.go). */
module BuildTarget {
  import opened ApiServer
  import opened BuildStatuses
  import opened BuildProtocol
  import opened BuildInvariant
  import opened Resolver

  /** If the action is a good walk, it ends at `site`. */
  ghost predicate EndsAt(s: State, a: Action, site: Site) {
    a.Resolve? && a.ok && a.r in s.recs && s.recs[a.r].pc.Resolving? ==> SiteOf(s, a.r, a.walk) == site
  }

  /** Every good walk of the first `n` actions ends at `site`. */
  ghost predicate OneSite(states: seq<State>, actions: seq<Action>, n: nat, site: Site)
    requires n <= |actions| < |states|
  {
    forall k :: 0 <= k < n ==> EndsAt(states[k], actions[k], site)
  }

  // ----- The invariant -----

  /** The phase was reported by `site` about the build, and the server has not moved back since. */
  ghost predicate PhaseTrue(st: BuildStatus, k: Atc, site: Site) {
    st.phase != Unset ==>
      && BuildRef(site, st.id) in k.server
      && NotAfter(st.phase, k.server[BuildRef(site, st.id)].phase)
      && exists b <- k.records :: b.site == site && CopiedFrom(st, b)
  }

  ghost predicate HistoryPinned(h: seq<BuildVersion>, k: Atc, site: Site) {
    && |h| > 0
    && (forall v :: 0 <= v < |h| ==> PhaseTrue(h[v].status, k, site) && NotAfter(h[v].status.phase, Last(h).status.phase))
  }

  predicate Sited(pc: PC) {
    pc.Creating? || pc.Aborting? || pc.Refreshing? || pc.Writing? || pc.Spawning?
  }

  ghost predicate ReconPinned(h: seq<BuildVersion>, k: Atc, c: Recon, site: Site) {
    && (Sited(c.pc) ==> c.site == site)
    && (c.pc.Writing? ==>
          && PhaseTrue(c.draft, k, site)
          && c.at < |h| && NotAfter(h[c.at].status.phase, c.draft.phase))
  }

  ghost predicate ReconsPinned(h: seq<BuildVersion>, k: Atc, recs: map<nat, Recon>, site: Site) {
    forall r <- recs :: ReconPinned(h, k, recs[r], site)
  }

  ghost predicate Pinned(s: State, site: Site) {
    && HistoryPinned(s.history, s.atc, site)
    && (s.Current().status.id != 0 ==> s.atc.home == site)
    && s.atc.aborts <= s.atc.replies.Keys
    && ReconsPinned(s.history, s.atc, s.recs, site)
  }

  // ----- Frames -----

  lemma PhaseStaysTrue(st: BuildStatus, k: Atc, k': Atc, site: Site)
    requires PhaseTrue(st, k, site) && Grows(k, k')
    ensures PhaseTrue(st, k', site)
  {
    if st.phase != Unset {
      var b :| b in k.records && b.site == site && CopiedFrom(st, b);
      assert b in k'.records;
    }
  }

  lemma HistoryStaysPinned(h: seq<BuildVersion>, k: Atc, k': Atc, site: Site)
    requires HistoryPinned(h, k, site) && Grows(k, k')
    ensures HistoryPinned(h, k', site)
  {
    forall v | 0 <= v < |h| ensures PhaseTrue(h[v].status, k', site) { PhaseStaysTrue(h[v].status, k, k', site); }
  }

  lemma VersionPinned(h: seq<BuildVersion>, k: Atc, v: BuildVersion, site: Site)
    requires HistoryPinned(h, k, site) && PhaseTrue(v.status, k, site) && NotAfter(Last(h).status.phase, v.status.phase)
    ensures HistoryPinned(h + [v], k, site)
  {
    var h' := h + [v];
    forall i | 0 <= i < |h'| ensures PhaseTrue(h'[i].status, k, site) && NotAfter(h'[i].status.phase, Last(h').status.phase) {
      if i < |h| { assert NotAfter(h[i].status.phase, Last(h).status.phase); }
    }
  }

  /** Reconcile `r` may have moved; all others stand where they stood. */
  lemma ReconsStayPinned(h: seq<BuildVersion>, k: Atc, recs: map<nat, Recon>,
                         h': seq<BuildVersion>, k': Atc, recs': map<nat, Recon>, r: nat, site: Site)
    requires ReconsPinned(h, k, recs, site) && h <= h' && Grows(k, k')
    requires forall q <- recs' | q != r :: q in recs && recs'[q] == recs[q]
    requires r in recs' ==> ReconPinned(h', k', recs'[r], site)
    ensures ReconsPinned(h', k', recs', site)
  {
    forall q <- recs' ensures ReconPinned(h', k', recs'[q], site) {
      if q != r {
        assert ReconPinned(h, k, recs[q], site);
        if recs[q].pc.Writing? { PhaseStaysTrue(recs[q].draft, k, k', site); }
      }
    }
  }

  // ----- The steps that matter -----

  /** What a refresh at `site` reports is never behind what is stored. */
  lemma RefreshIsPinned(s: State, r: nat, found: bool, site: Site)
    requires Inv(s) && Pinned(s, site) && At(s, r, Refreshing) && s.recs[r].at < |s.history|
    requires found ==> Target(s.history, s.recs[r]) in s.atc.server
    ensures ReconPinned(s.history, s.atc, DoRefresh(s, r, found).recs[r], site)
  {
    var c := s.recs[r];
    var o := s.history[c.at];
    var draft := DoRefresh(s, r, found).recs[r].draft;
    assert ReconOk(s.history, s.atc, c) && ReconPinned(s.history, s.atc, c, site);
    assert Good(o.status, s.atc) && PhaseTrue(o.status, s.atc, site);
    if found {
      var b := s.atc.server[Target(s.history, c)];
      assert Listed(s.atc, Target(s.history, c)) && CopiedFrom(draft, b);
    } else if draft.phase != Unset {
      var b :| b in s.atc.records && b.site == site && CopiedFrom(o.status, b);
      assert CopiedFrom(draft, b);
    }
  }

  /** An abort at `site` names a build of this Build. */
  lemma AbortIsPinned(s: State, r: nat, site: Site)
    requires Inv(s) && Pinned(s, site) && At(s, r, Aborting) && s.recs[r].at < |s.history|
    ensures Target(s.history, s.recs[r]) in s.atc.replies
  {
    var c := s.recs[r];
    assert ReconOk(s.history, s.atc, c) && ReconPinned(s.history, s.atc, c, site);
    if c.made.None? {
      assert Precedes(s.history[c.at], s.Current());
      assert Good(s.Current().status, s.atc);
    }
  }

  /** The draft of a landed write is pinned like the version it follows. */
  lemma DraftIsPinned(s: State, r: nat, site: Site)
    requires Inv(s) && Pinned(s, site) && r in s.recs && (s.recs[r].pc.Writing? || s.recs[r].pc.Reporting?)
    requires IsCurrent(s.history, s.recs[r].at)
    ensures var draft := s.recs[r].draft;
            && PhaseTrue(draft, s.atc, site) && NotAfter(s.Current().status.phase, draft.phase)
            && (draft.id != 0 ==> HomeOf(s.atc, s.recs[r]) == site)
  {
    var c := s.recs[r];
    assert ReconOk(s.history, s.atc, c) && ReconPinned(s.history, s.atc, c, site);
    if c.pc.Reporting? && c.draft.phase != Unset {
      assert PhaseTrue(s.history[c.at].status, s.atc, site);
      var b :| b in s.atc.records && b.site == site && CopiedFrom(s.history[c.at].status, b);
      assert CopiedFrom(c.draft, b);
    }
  }

  lemma LandedIsPinned(s: State, r: nat, recs': map<nat, Recon>, queued: bool, timer: bool, site: Site)
    requires Inv(s) && Pinned(s, site) && r in s.recs && (s.recs[r].pc.Writing? || s.recs[r].pc.Reporting?)
    requires IsCurrent(s.history, s.recs[r].at)
    requires recs' == s.recs - {r} || (s.recs[r].pc.Writing? && recs' == Onward(s, r))
    ensures Pinned(Landed(s, r, recs', queued, timer), site)
  {
    var s', c := Landed(s, r, recs', queued, timer), s.recs[r];
    assert ReconPinned(s.history, s.atc, c, site);
    DraftIsPinned(s, r, site);
    GrowsReflexive(s.atc);
    assert Grows(s.atc, s'.atc);
    VersionPinned(s.history, s.atc, Last(s.history).(status := c.draft), site);
    HistoryStaysPinned(s'.history, s.atc, s'.atc, site);
    ReconsStayPinned(s.history, s.atc, s.recs, s'.history, s'.atc, recs', r, site);
  }

  // ----- Every step -----

  /** Reconcile `r` moves to `c` and nothing else changes. */
  lemma MoveIsPinned(s: State, r: nat, c: Recon, site: Site)
    requires Pinned(s, site) && ReconPinned(s.history, s.atc, c, site)
    ensures Pinned(s.(recs := s.recs[r := c]), site)
  {}

  lemma ExitIsPinned(s: State, r: nat, orphans: set<BuildRef>, retry: bool, later: bool, site: Site)
    requires Pinned(s, site)
    ensures Pinned(Exit(s.(orphans := orphans), r, retry, later), site)
  {}

  lemma AtcIsPinned(s: State, k: Atc, site: Site)
    requires Pinned(s, site) && Grows(s.atc, k) && k.home == s.atc.home && k.aborts <= k.replies.Keys
    ensures Pinned(s.(atc := k), site)
  {
    HistoryStaysPinned(s.history, s.atc, k, site);
    forall r <- s.recs ensures ReconPinned(s.history, k, s.recs[r], site) {
      assert ReconPinned(s.history, s.atc, s.recs[r], site);
      if s.recs[r].pc.Writing? { PhaseStaysTrue(s.recs[r].draft, s.atc, k, site); }
    }
  }

  lemma WriteIsPinned(s: State, r: nat, fate: Fate, site: Site)
    requires Inv(s) && Pinned(s, site) && At(s, r, Writing) && FateAllowed(s, r, fate)
    ensures Pinned(DoWrite(s, r, fate), site)
  {
    match fate
    case Rejected => ExitIsPinned(s, r, s.orphans + MadeRefs(s.recs[r]), true, false, site);
    case Unacked => LandedIsPinned(s, r, s.recs - {r}, true, s.timer, site);
    case Acked => LandedIsPinned(s, r, Onward(s, r), s.queued, s.timer, site);
  }

  lemma ReportIsPinned(s: State, r: nat, fate: Fate, site: Site)
    requires Inv(s) && Pinned(s, site) && r in s.recs && s.recs[r].pc.Reporting? && FateAllowed(s, r, fate)
    ensures Pinned(DoReport(s, r, fate), site)
  {
    if fate.Rejected? {
      ExitIsPinned(s, r, s.orphans, false, s.recs[r].pc.requeue, site);
    } else {
      LandedIsPinned(s, r, s.recs - {r}, s.queued, s.timer || s.recs[r].pc.requeue, site);
    }
  }

  lemma ResolveIsPinned(s: State, r: nat, ok: bool, site: Site)
    requires Pinned(s, site) && r in s.recs && s.recs[r].pc.Resolving? && s.recs[r].at < |s.history|
    ensures Pinned(DoResolve(s, r, ok, site), site)
  {
    MoveIsPinned(s, r, DoResolve(s, r, ok, site).recs[r], site);
  }

  lemma CreateIsPinned(s: State, r: nat, outcome: CreateOutcome, b: AtcBuild, site: Site)
    requires Pinned(s, site) && AtcOk(s.atc) && At(s, r, Creating) && s.recs[r].at < |s.history|
    requires outcome.Refused? || FreshBuild(s.atc, b)
    ensures Pinned(DoCreate(s, r, outcome, b), site)
  {
    var s' := DoCreate(s, r, outcome, b);
    assert ReconPinned(s.history, s.atc, s.recs[r], site);
    GrowsReflexive(s.atc);
    if !outcome.Refused? { ReplyGrows(s.atc, b); }
    AtcIsPinned(s, s'.atc, site);
    MoveIsPinned(s.(atc := s'.atc, orphans := s'.orphans), r, s'.recs[r], site);
  }

  lemma AbortKeepsPinned(s: State, r: nat, site: Site)
    requires Inv(s) && Pinned(s, site) && At(s, r, Aborting) && s.recs[r].at < |s.history|
    ensures Pinned(DoAbort(s, r), site)
  {
    AbortIsPinned(s, r, site);
    AbortStepPinned(s, r, site);
  }

  lemma AbortStepPinned(s: State, r: nat, site: Site)
    requires Pinned(s, site) && At(s, r, Aborting) && s.recs[r].at < |s.history|
    requires Target(s.history, s.recs[r]) in s.atc.replies
    ensures Pinned(DoAbort(s, r), site)
  {
    var s' := DoAbort(s, r);
    assert ReconPinned(s.history, s.atc, s.recs[r], site);
    GrowsReflexive(s.atc);
    AtcIsPinned(s, s'.atc, site);
    MoveIsPinned(s.(atc := s'.atc), r, s.recs[r].(pc := Refreshing), site);
  }

  lemma RefreshKeepsPinned(s: State, r: nat, found: bool, site: Site)
    requires Inv(s) && Pinned(s, site) && At(s, r, Refreshing) && s.recs[r].at < |s.history|
    requires found ==> Target(s.history, s.recs[r]) in s.atc.server
    ensures Pinned(DoRefresh(s, r, found), site)
  {
    RefreshIsPinned(s, r, found, site);
    MoveIsPinned(s, r, DoRefresh(s, r, found).recs[r], site);
  }

  lemma WalkIsPinned(s: State, a: Action, s': State, site: Site)
    requires Pinned(s, site) && IsStep(s, a, s') && a.Resolve? && EndsAt(s, a, site)
    ensures Pinned(s', site)
  {
    ResolveIsPinned(s, a.r, a.ok, site);
  }

  lemma CallIsPinned(s: State, a: Action, s': State, site: Site)
    requires Inv(s) && Pinned(s, site) && IsStep(s, a, s') && EndsAt(s, a, site)
    requires a.Resolve? || a.Create? || a.Abort? || a.Refresh?
    ensures Pinned(s', site)
  {
    if a.Resolve? {
      WalkIsPinned(s, a, s', site);
    } else if a.Create? {
      CreateIsPinned(s, a.r, a.outcome, a.b, site);
    } else if a.Abort? {
      AbortKeepsPinned(s, a.r, site);
    } else {
      RefreshKeepsPinned(s, a.r, a.found, site);
    }
  }

  lemma ReadIsPinned(s: State, r: nat, version: nat, site: Site)
    requires Pinned(s, site) && r in s.recs && version < |s.history|
    ensures Pinned(DoRead(s, r, version), site)
  {
    var o := s.history[version];
    if o.deleting || Terminal(o.status.phase) {
      ExitIsPinned(s, r, s.orphans, false, false, site);
    } else if o.spec.jobRef.None? {
      MoveIsPinned(s, r, Recon(Reporting(false), version, "", None, NotReady(o.status, "NoJobRef")), site);
    } else {
      MoveIsPinned(s, r, Recon(FindingJob, version, "", None, EMPTY_STATUS), site);
    }
  }

  lemma FindJobIsPinned(s: State, r: nat, lookup: JobLookup, site: Site)
    requires Pinned(s, site) && r in s.recs
    ensures Pinned(DoFindJob(s, r, lookup), site)
  {
    if lookup.JobFound? {
      MoveIsPinned(s, r, s.recs[r].(pc := Resolving(lookup.job)), site);
    } else {
      ExitIsPinned(s, r, s.orphans, lookup.JobError?, false, site);
    }
  }

  lemma EndIsPinned(s: State, a: Action, s': State, site: Site)
    requires Inv(s) && Pinned(s, site) && IsStep(s, a, s')
    requires a.Report? || a.Write? || a.ReadGone? || a.Spawn? || a.Die?
    ensures Pinned(s', site)
  {
    if a.Report? {
      ReportIsPinned(s, a.r, a.fate, site);
    } else if a.Write? {
      WriteIsPinned(s, a.r, a.fate, site);
    } else if a.Die? {
      ExitIsPinned(s, a.r, s.orphans + MadeRefs(s.recs[a.r]), true, false, site);
    } else {
      ExitIsPinned(s, a.r, s.orphans, false, a.Spawn?, site);
    }
  }

  lemma ServerIsPinned(s: State, a: Action, s': State, site: Site)
    requires AtcOk(s.atc) && Pinned(s, site) && IsStep(s, a, s') && IsOutside(a) && !a.Begin? && !a.Edit? && !a.MarkDeleting?
    ensures Pinned(s', site)
  {
    OutsideAdvances(s, a, s');
    AtcIsPinned(s, s'.atc, site);
  }

  lemma UserIsPinned(s: State, v: BuildVersion, lastEdit: nat, site: Site)
    requires Pinned(s, site) && v.status == Last(s.history).status
    ensures Pinned(s.(history := s.history + [v], lastEdit := lastEdit), site)
  {
    VersionPinned(s.history, s.atc, v, site);
    forall q <- s.recs ensures ReconPinned(s.history + [v], s.atc, s.recs[q], site) {
      assert ReconPinned(s.history, s.atc, s.recs[q], site);
    }
  }

  lemma StepPinned(s: State, a: Action, s': State, site: Site)
    requires Inv(s) && Pinned(s, site) && IsStep(s, a, s') && EndsAt(s, a, site)
    ensures Pinned(s', site)
  {
    if a.Edit? || a.MarkDeleting? {
      UserIsPinned(s, Last(s'.history), s'.lastEdit, site);
    } else if a.Begin? {
      MoveIsPinned(s.(queued := false), a.r, s'.recs[a.r], site);
    } else if IsOutside(a) {
      ServerIsPinned(s, a, s', site);
    } else if a.Read? {
      ReadIsPinned(s, a.r, a.version, site);
    } else if a.FindJob? {
      FindJobIsPinned(s, a.r, a.lookup, site);
    } else if a.Resolve? || a.Create? || a.Abort? || a.Refresh? {
      CallIsPinned(s, a, s', site);
    } else {
      EndIsPinned(s, a, s', site);
    }
  }

  lemma {:induction false} RunPinned(states: seq<State>, actions: seq<Action>, i: nat, site: Site)
    requires IsRun(states, actions) && i < |states| && OneSite(states, actions, i, site)
    ensures Inv(states[i]) && Pinned(states[i], site)
  {
    RunInv(states, actions, i);
    if i > 0 {
      RunPinned(states, actions, i - 1, site);
      StepPinned(states[i - 1], actions[i - 1], states[i], site);
    }
  }

  // ----- With one server -----

  /** The stored phase never moves back. */
  lemma StatusNeverMovesBack(states: seq<State>, actions: seq<Action>, i: nat, j: nat, site: Site)
    requires IsRun(states, actions) && i <= j < |states| && OneSite(states, actions, j, site)
    ensures |states[i].history| > 0 && |states[j].history| > 0
    ensures NotAfter(states[i].Current().status.phase, states[j].Current().status.phase)
  {
    RunInv(states, actions, i);
    RunPinned(states, actions, j, site);
    RunAdvances(states, actions, i, j);
    assert states[j].history[|states[i].history| - 1] == states[i].Current();
  }

  /** A stored terminal phase is the phase Concourse holds for the stored build, then and ever after. */
  lemma TerminalIsConcoursePhase(states: seq<State>, actions: seq<Action>, i: nat, j: nat, site: Site)
    requires IsRun(states, actions) && i <= j < |states| && OneSite(states, actions, i, site)
    requires |states[i].history| > 0 && states[i].Current().status.phase in {Succeeded, Failed, Errored, Aborted}
    ensures var ref := states[i].Stored();
            && ref.site == site && ref in states[j].atc.server
            && states[j].atc.server[ref].phase == states[i].Current().status.phase
  {
    var s := states[i];
    RunPinned(states, actions, i, site);
    RunAdvances(states, actions, i, j);
    assert PhaseTrue(s.history[|s.history| - 1].status, s.atc, site);
    assert Good(s.history[|s.history| - 1].status, s.atc);
    assert NotAfter(s.atc.server[s.Stored()].phase, states[j].atc.server[s.Stored()].phase);
  }

  /** Phase, end and creator of every stored version are those of one report about the stored build itself. */
  lemma StoredIsTruthful(states: seq<State>, actions: seq<Action>, i: nat, v: nat, site: Site)
    requires IsRun(states, actions) && i < |states| && v < |states[i].history| && OneSite(states, actions, i, site)
    ensures PhaseTrue(states[i].history[v].status, states[i].atc, site)
    ensures states[i].history[v].status.id != 0 ==> states[i].atc.home == site
  {
    RunPinned(states, actions, i, site);
    assert Precedes(states[i].history[v], states[i].Current());
  }

  /** Only builds created for this Build are aborted. */
  lemma AbortsAreOwn(states: seq<State>, actions: seq<Action>, i: nat, site: Site)
    requires IsRun(states, actions) && i < |states| && OneSite(states, actions, i, site)
    ensures states[i].atc.aborts <= states[i].atc.replies.Keys
  {
    RunPinned(states, actions, i, site);
  }
}
