/** What every action of the Build protocol keeps. */
module BuildInvariant {
  import opened ApiServer
  import opened BuildStatuses
  import opened BuildProtocol

  // ----- Statuses and versions -----

  /** `b` may follow `a` as the stored status of one Build, whatever servers the reconciles have asked. */
  ghost predicate Evolves(a: BuildStatus, b: BuildStatus) {
    && (Terminal(a.phase) ==> b == a)
    && (a.id != 0 ==> b.id == a.id)
    && (a.phase != Unset ==> b.phase != Unset)
  }

  ghost predicate Precedes(a: BuildVersion, b: BuildVersion) {
    (a.deleting ==> b.deleting) && Evolves(a.status, b.status)
  }

  function StartOf(b: AtcBuild): Option<int> {
    if b.startTime > 0 then Some(b.startTime) else None
  }

  /** Phase, end time and creator are those of one report about a build with the stored ID. */
  ghost predicate CopiedFrom(st: BuildStatus, b: AtcBuild) {
    && b.id == st.id && b.phase == st.phase
    && (b.endTime > 0 ==> st.end == Some(b.endTime))
    && (b.createdBy.Some? ==> st.createdBy == b.createdBy.value)
  }

  /** Name, URL and start are those of the create reply for the build on its home server, and phase, end and
      creator those of one report of some server. */
  ghost predicate Truthful(st: BuildStatus, k: Atc) {
    && (st.id != 0 ==>
          var ref := BuildRef(k.home, st.id);
          && ref in k.replies
          && st.name == k.replies[ref].name && st.apiURL == k.replies[ref].apiURL
          && st.start == StartOf(k.replies[ref]))
    && (st.phase != Unset ==> exists b <- k.records :: CopiedFrom(st, b))
  }

  ghost predicate Good(st: BuildStatus, k: Atc) {
    Coherent(st) && Truthful(st, k)
  }

  ghost predicate ObservedOk(v: BuildVersion) {
    v.status.observed <= v.generation && v.generation > 0
  }

  ghost predicate HistoryOk(h: seq<BuildVersion>, lastEdit: nat, k: Atc) {
    && lastEdit < |h|
    && (forall i :: 0 <= i < |h| ==> Good(h[i].status, k) && ObservedOk(h[i]))
    && (forall i :: 0 <= i < |h| ==> Precedes(h[i], Last(h)))
    && (forall i :: lastEdit <= i < |h| ==> h[i].spec == Last(h).spec)
  }

  // ----- Concourse -----

  ghost predicate AtcOk(k: Atc) {
    && k.replies.Keys <= k.server.Keys
    && (forall ref <- k.server :: Listed(k, ref))
    && (forall ref <- k.replies :: k.replies[ref].Ref() == ref)
  }

  ghost predicate AbortAsked(h: seq<BuildVersion>) {
    exists i :: 0 <= i < |h| && h[i].spec.abort
  }

  /** Concourse moves on: builds appear, phases advance, reports and replies accumulate. */
  ghost predicate Grows(k: Atc, k': Atc) {
    && k.server.Keys <= k'.server.Keys
    && (forall ref <- k.server :: NotAfter(k.server[ref].phase, k'.server[ref].phase))
    && k.replies.Keys <= k'.replies.Keys
    && (forall ref <- k.replies :: k'.replies[ref] == k.replies[ref])
    && k.records <= k'.records && k.aborts <= k'.aborts
  }

  // ----- Reconciles -----

  ghost predicate Tracking(pc: PC) {
    pc.FindingJob? || pc.Resolving? || pc.Creating? || pc.Aborting? || pc.Refreshing? || pc.Writing?
  }

  ghost predicate OnlyReadyChanged(a: BuildStatus, b: BuildStatus) {
    && b == a.(conds := b.conds)
    && (COMPLETE in b.conds <==> COMPLETE in a.conds)
    && (COMPLETE in a.conds ==> b.conds[COMPLETE] == a.conds[COMPLETE])
  }

  /** Ready is False with a reason; without a Job reference the reconcile is not to be repeated. */
  ghost predicate Trouble(o: BuildVersion, conds: Conditions, requeue: bool) {
    if !requeue then o.spec.jobRef.None? && Has(conds, "Ready", CondFalse, "NoJobRef")
    else || Has(conds, "Ready", CondFalse, "ChainNotReady")
         || (Has(conds, "Ready", CondFalse, "TriggerFailed") && o.status.id == 0)
  }

  ghost predicate ReconOk(h: seq<BuildVersion>, k: Atc, c: Recon) {
    && (c.made.Some? ==> (c.pc.Aborting? || c.pc.Refreshing? || c.pc.Writing?) && c.made.value.site == c.site)
    && (!c.pc.Reading? ==>
      && c.at < |h|
      && var o := h[c.at];
      && (Tracking(c.pc) ==> o.spec.jobRef.Some? && !o.deleting)
      && (Tracking(c.pc) || c.pc.Reporting? ==> !Terminal(o.status.phase))
      && (c.made.Some? || c.pc.Creating? ==> o.status.id == 0)
      && (c.pc.Aborting? || c.pc.Refreshing? || c.pc.Writing? ==> c.made.Some? || o.status.id != 0)
      && ((c.pc.Refreshing? || c.pc.Writing?) && o.spec.abort ==> Target(h, c) in k.aborts)
      && (c.pc.Writing? ==>
            && Good(c.draft, k.(home := HomeOf(k, c)))
            && Evolves(o.status, c.draft)
            && c.draft.id == Working(h, c).id != 0
            && c.draft.observed == o.generation
            && Has(c.draft.conds, "Ready", CondTrue, "Tracked"))
      && (c.pc.Reporting? ==>
            && OnlyReadyChanged(o.status, c.draft)
            && Trouble(o, c.draft.conds, c.pc.requeue))
      && (c.pc.Spawning? ==> c.draft.id == o.status.id != 0))
  }

  ghost predicate ReconsOk(h: seq<BuildVersion>, k: Atc, recs: map<nat, Recon>) {
    forall r <- recs :: ReconOk(h, k, recs[r])
  }

  ghost predicate InFlight(recs: map<nat, Recon>, r: nat, ref: BuildRef) {
    r in recs && recs[r].made.Some? && recs[r].made.value.Ref() == ref
  }

  /** Each build created for this Build is exactly one of: stored, orphaned, held by one reconcile. */
  ghost predicate Accounted(stored: BuildRef, replies: map<BuildRef, AtcBuild>, orphans: set<BuildRef>, recs: map<nat, Recon>) {
    && orphans <= replies.Keys
    && stored !in orphans
    && (forall r <- recs | recs[r].made.Some? ::
          var b := recs[r].made.value;
          b.Ref() in replies && replies[b.Ref()] == b && b.Ref() !in orphans && b.Ref() != stored)
    && (forall r, r', ref :: InFlight(recs, r, ref) && InFlight(recs, r', ref) ==> r == r')
    && (forall ref <- replies :: ref == stored || ref in orphans || exists r :: InFlight(recs, r, ref))
  }

  ghost predicate Inv(s: State) {
    && HistoryOk(s.history, s.lastEdit, s.atc)
    && s.seen < |s.history|
    && AtcOk(s.atc)
    && (s.atc.aborts != {} ==> AbortAsked(s.history))
    && ReconsOk(s.history, s.atc, s.recs)
    && Accounted(s.Stored(), s.atc.replies, s.orphans, s.recs)
  }

  lemma InvIsWellFormed(s: State)
    requires Inv(s)
    ensures s.WellFormed()
  {
    assert forall r <- s.recs :: ReconOk(s.history, s.atc, s.recs[r]);
  }

  lemma InitInv(s: State)
    requires Init(s)
    ensures Inv(s)
  {}

  // ----- Status updates -----

  lemma DraftIsGood(st: BuildStatus, w: BuildStatus, made: Option<AtcBuild>, reply: Option<AtcBuild>, gen: nat, k: Atc)
    requires Good(st, k) && !Terminal(st.phase)
    requires made.Some? ==>
               st.id == 0 && made.value.id > 0 && made.value.Ref() in k.replies && k.replies[made.value.Ref()] == made.value
    requires w == if made.Some? then WithCreated(st, made.value) else st
    requires w.id != 0 && gen > 0
    requires reply.Some? ==> reply.value in k.records && reply.value.id == w.id && reply.value.phase != Unset
    ensures var draft := Concluded(WithRefresh(w, reply), gen);
            && Good(draft, if made.Some? then k.(home := made.value.site) else k)
            && Evolves(st, draft) && draft.id == w.id && draft.observed == gen
            && Has(draft.conds, "Ready", CondTrue, "Tracked")
  {
    var draft := Concluded(WithRefresh(w, reply), gen);
    assert COMPLETE != READY;
    if reply.Some? {
      assert CopiedFrom(draft, reply.value);
    } else if draft.phase != Unset {
      var b :| b in k.records && CopiedFrom(st, b);
      assert CopiedFrom(draft, b);
    }
  }

  lemma NotReadyChangesOnlyReady(st: BuildStatus, reason: string)
    ensures OnlyReadyChanged(st, NotReady(st, reason))
  {
    assert COMPLETE != READY;
  }

  lemma OnlyReadyIsGood(st: BuildStatus, draft: BuildStatus, k: Atc)
    requires Good(st, k) && !Terminal(st.phase) && OnlyReadyChanged(st, draft) && ReadyTells(draft)
    ensures Good(draft, k) && Evolves(st, draft)
  {
    if draft.phase != Unset {
      var b :| b in k.records && CopiedFrom(st, b);
      assert CopiedFrom(draft, b);
    }
  }

  // ----- Frames -----

  lemma GoodGrows(st: BuildStatus, k: Atc, k': Atc)
    requires Good(st, k) && Grows(k, k') && k'.home == k.home
    ensures Good(st, k')
  {}

  /** A reconcile's own facts survive a longer history and a Concourse that moved on. */
  lemma ReconsGrow(h: seq<BuildVersion>, k: Atc, h': seq<BuildVersion>, k': Atc, recs: map<nat, Recon>)
    requires h <= h' && Grows(k, k') && k'.home == k.home && ReconsOk(h, k, recs)
    ensures ReconsOk(h', k', recs)
  {
    forall r <- recs ensures ReconOk(h', k', recs[r]) {
      var c := recs[r];
      assert ReconOk(h, k, c);
      if !c.pc.Reading? {
        assert h'[c.at] == h[c.at];
        if c.pc.Writing? { GoodGrows(c.draft, k.(home := HomeOf(k, c)), k'.(home := HomeOf(k', c))); }
      }
    }
  }

  lemma HistoryGrows(h: seq<BuildVersion>, lastEdit: nat, k: Atc, k': Atc)
    requires HistoryOk(h, lastEdit, k) && Grows(k, k') && k'.home == k.home
    ensures HistoryOk(h, lastEdit, k')
  {
    forall i | 0 <= i < |h| ensures Good(h[i].status, k') { GoodGrows(h[i].status, k, k'); }
  }

  /** One more version `v` on top of the history. */
  lemma AppendVersion(h: seq<BuildVersion>, lastEdit: nat, k: Atc, v: BuildVersion, lastEdit': nat)
    requires HistoryOk(h, lastEdit, k)
    requires Precedes(Last(h), v) && Good(v.status, k) && ObservedOk(v)
    requires lastEdit' == |h| || (lastEdit' == lastEdit && v.spec == Last(h).spec)
    ensures HistoryOk(h + [v], lastEdit', k)
  {
    var h' := h + [v];
    forall i | 0 <= i < |h'| ensures Precedes(h'[i], Last(h')) {
      if i < |h| { assert Precedes(h[i], Last(h)); }
    }
    assert forall i :: 0 <= i < |h'| ==> i < |h| || h'[i] == v;
  }

  lemma StatusLands(h: seq<BuildVersion>, lastEdit: nat, k: Atc, status: BuildStatus)
    requires HistoryOk(h, lastEdit, k)
    requires Good(status, k) && Evolves(Last(h).status, status) && status.observed <= Last(h).generation
    ensures var h' := PutStatus(h, status);
            HistoryOk(h', lastEdit, k) && h <= h' && Last(h').status == status
  {
    var v := Last(h).(status := status);
    assert ObservedOk(h[|h| - 1]);
    if v != Last(h) { AppendVersion(h, lastEdit, k, v, lastEdit); }
  }

  /** Before an ID is stored, nothing depends on its server. */
  lemma HomeIsFree(h: seq<BuildVersion>, lastEdit: nat, k: Atc, recs: map<nat, Recon>, home: Site)
    requires HistoryOk(h, lastEdit, k) && ReconsOk(h, k, recs) && Last(h).status.id == 0
    ensures HistoryOk(h, lastEdit, k.(home := home)) && ReconsOk(h, k.(home := home), recs)
  {
    forall i | 0 <= i < |h| ensures h[i].status.id == 0 && Good(h[i].status, k.(home := home)) {
      assert Precedes(h[i], Last(h));
      assert Good(h[i].status, k);
    }
    forall r <- recs ensures ReconOk(h, k.(home := home), recs[r]) {
      assert ReconOk(h, k, recs[r]);
    }
  }

  lemma AbortStillAsked(h: seq<BuildVersion>, h': seq<BuildVersion>)
    requires AbortAsked(h) && h <= h'
    ensures AbortAsked(h')
  {
    var i :| 0 <= i < |h| && h[i].spec.abort;
    assert h'[i].spec.abort;
  }

  // ----- Accounting -----

  function Held(recs: map<nat, Recon>, r: nat): Option<AtcBuild> {
    if r in recs then recs[r].made else None
  }

  lemma AccountedKept(stored: BuildRef, replies: map<BuildRef, AtcBuild>, orphans: set<BuildRef>,
                      recs: map<nat, Recon>, recs': map<nat, Recon>)
    requires Accounted(stored, replies, orphans, recs)
    requires forall r :: Held(recs', r) == Held(recs, r)
    ensures Accounted(stored, replies, orphans, recs')
  {
    assert forall r, ref :: InFlight(recs', r, ref) <==> InFlight(recs, r, ref) by {
      assert forall r, ref :: InFlight(recs, r, ref) <==> Held(recs, r).Some? && Held(recs, r).value.Ref() == ref;
      assert forall r, ref :: InFlight(recs', r, ref) <==> Held(recs', r).Some? && Held(recs', r).value.Ref() == ref;
    }
    forall r <- recs' | recs'[r].made.Some?
      ensures var b := recs'[r].made.value;
              b.Ref() in replies && replies[b.Ref()] == b && b.Ref() !in orphans && b.Ref() != stored
    {
      assert Held(recs', r) == Held(recs, r);
    }
  }

  /** A build that reconcile `r` held is now an orphan. */
  lemma AccountedOrphan(stored: BuildRef, replies: map<BuildRef, AtcBuild>, orphans: set<BuildRef>, recs: map<nat, Recon>, r: nat)
    requires Accounted(stored, replies, orphans, recs) && r in recs
    ensures Accounted(stored, replies, orphans + MadeRefs(recs[r]), recs - {r})
  {
    var orphans', recs' := orphans + MadeRefs(recs[r]), recs - {r};
    assert forall q, ref :: InFlight(recs', q, ref) <==> q != r && InFlight(recs, q, ref);
    if recs[r].made.Some? { assert InFlight(recs, r, recs[r].made.value.Ref()); }
    forall ref <- replies ensures ref == stored || ref in orphans' || exists q :: InFlight(recs', q, ref) {
      if ref != stored && ref !in orphans' {
        var q :| InFlight(recs, q, ref);
        assert InFlight(recs', q, ref);
      }
    }
    forall q <- recs' | recs'[q].made.Some? ensures recs'[q].made.value.Ref() !in orphans' {
      assert InFlight(recs', q, recs'[q].made.value.Ref());
    }
  }

  /** The build that reconcile `r` held is now the stored one. */
  lemma AccountedStored(stored: BuildRef, replies: map<BuildRef, AtcBuild>, orphans: set<BuildRef>, recs: map<nat, Recon>, r: nat, recs': map<nat, Recon>)
    requires Accounted(stored, replies, orphans, recs) && r in recs && recs[r].made.Some?
    requires stored !in replies
    requires forall q :: Held(recs', q) == if q == r then None else Held(recs, q)
    ensures Accounted(recs[r].made.value.Ref(), replies, orphans, recs')
  {
    var mine := recs[r].made.value.Ref();
    assert InFlight(recs, r, mine);
    assert forall q, ref :: InFlight(recs', q, ref) <==> q != r && InFlight(recs, q, ref) by {
      assert forall q, ref :: InFlight(recs, q, ref) <==> Held(recs, q).Some? && Held(recs, q).value.Ref() == ref;
      assert forall q, ref :: InFlight(recs', q, ref) <==> Held(recs', q).Some? && Held(recs', q).value.Ref() == ref;
    }
    forall q <- recs' | recs'[q].made.Some?
      ensures var b := recs'[q].made.value;
              b.Ref() in replies && replies[b.Ref()] == b && b.Ref() !in orphans && b.Ref() != mine
    {
      assert Held(recs', q) == Held(recs, q);
      assert InFlight(recs', q, recs'[q].made.value.Ref());
    }
    forall ref <- replies ensures ref == mine || ref in orphans || exists q :: InFlight(recs', q, ref) {
      if ref != mine && ref !in orphans {
        var q :| InFlight(recs, q, ref);
        assert InFlight(recs', q, ref);
      }
    }
  }

  /** A new build is held by reconcile `r`, or by nobody if its reply was lost. */
  lemma AccountedMade(stored: BuildRef, replies: map<BuildRef, AtcBuild>, orphans: set<BuildRef>, recs: map<nat, Recon>,
                      b: AtcBuild, r: nat, c: Recon)
    requires Accounted(stored, replies, orphans, recs) && r in recs && recs[r].made.None?
    requires b.Ref() !in replies && b.Ref() != stored && c.made == Some(b)
    ensures Accounted(stored, replies[b.Ref() := b], orphans, recs[r := c])
    ensures Accounted(stored, replies[b.Ref() := b], orphans + {b.Ref()}, recs)
  {
    var replies', recs' := replies[b.Ref() := b], recs[r := c];
    assert InFlight(recs', r, b.Ref());
    assert forall q, ref :: InFlight(recs', q, ref) <==> InFlight(recs, q, ref) || (q == r && ref == b.Ref());
    forall ref <- replies' ensures ref == stored || ref in orphans || exists q :: InFlight(recs', q, ref) {
      if ref != b.Ref() && ref != stored && ref !in orphans {
        var q :| InFlight(recs, q, ref);
        assert InFlight(recs', q, ref);
      }
    }
  }

  // ----- Actions -----

  /** Reconcile `r` ends without touching anything it shares with the others. */
  lemma ExitStep(s: State, r: nat, retry: bool, later: bool)
    requires Inv(s) && r in s.recs && s.recs[r].made.None?
    ensures Inv(Exit(s, r, retry, later))
  {
    AccountedKept(s.Stored(), s.atc.replies, s.orphans, s.recs, s.recs - {r});
  }

  /** Reconcile `r` moves to `c` without touching anything it shares with the others. */
  lemma MoveStep(s: State, r: nat, c: Recon)
    requires Inv(s) && Held(s.recs, r) == c.made && ReconOk(s.history, s.atc, c)
    ensures Inv(s.(recs := s.recs[r := c]))
  {
    AccountedKept(s.Stored(), s.atc.replies, s.orphans, s.recs, s.recs[r := c]);
  }

  lemma NotReadyOk(h: seq<BuildVersion>, k: Atc, at: nat, requeue: bool, reason: string)
    requires at < |h| && !Terminal(h[at].status.phase)
    requires Trouble(h[at], NotReady(h[at].status, reason).conds, requeue)
    ensures ReconOk(h, k, Recon(Reporting(requeue), at, "", None, NotReady(h[at].status, reason)))
  {
    NotReadyChangesOnlyReady(h[at].status, reason);
  }

  lemma StepRead(s: State, r: nat, version: nat)
    requires Inv(s) && At(s, r, Reading) && version < |s.history|
    ensures Inv(DoRead(s, r, version))
  {
    var o := s.history[version];
    assert ReconOk(s.history, s.atc, s.recs[r]);
    if o.deleting || Terminal(o.status.phase) {
      ExitStep(s, r, false, false);
    } else if o.spec.jobRef.None? {
      NotReadyOk(s.history, s.atc, version, false, "NoJobRef");
      MoveStep(s, r, Recon(Reporting(false), version, "", None, NotReady(o.status, "NoJobRef")));
    } else {
      MoveStep(s, r, Recon(FindingJob, version, "", None, EMPTY_STATUS));
    }
  }

  lemma StepFindJob(s: State, r: nat, lookup: JobLookup)
    requires Inv(s) && At(s, r, FindingJob)
    ensures Inv(DoFindJob(s, r, lookup))
  {
    var c := s.recs[r];
    assert ReconOk(s.history, s.atc, c);
    if lookup.JobFound? {
      MoveStep(s, r, c.(pc := Resolving(lookup.job)));
    } else {
      ExitStep(s, r, lookup.JobError?, false);
    }
  }

  lemma StepNotReady(s: State, r: nat, reason: string)
    requires Inv(s) && r in s.recs && s.recs[r].at < |s.history|
    requires if reason == "TriggerFailed" then s.recs[r].pc.Creating? else s.recs[r].pc.Resolving? && reason == "ChainNotReady"
    ensures Inv(DoNotReady(s, r, reason))
  {
    var c := s.recs[r];
    assert ReconOk(s.history, s.atc, c);
    NotReadyChangesOnlyReady(s.history[c.at].status, reason);
    MoveStep(s, r, c.(pc := Reporting(true), draft := NotReady(s.history[c.at].status, reason)));
  }

  lemma StepResolve(s: State, r: nat, ok: bool, site: Site)
    requires Inv(s) && r in s.recs && s.recs[r].pc.Resolving? && s.recs[r].at < |s.history|
    ensures Inv(DoResolve(s, r, ok, site))
  {
    var c := s.recs[r];
    assert ReconOk(s.history, s.atc, c);
    if !ok {
      StepNotReady(s, r, "ChainNotReady");
    } else {
      MoveStep(s, r, c.(site := site, pc := if s.history[c.at].status.id == 0 then Creating else Aborting));
    }
  }

  lemma WorkingIdIsSet(s: State, r: nat)
    requires Inv(s) && r in s.recs && (s.recs[r].pc.Aborting? || s.recs[r].pc.Refreshing?)
    requires s.recs[r].at < |s.history|
    ensures Working(s.history, s.recs[r]).id != 0
    ensures s.recs[r].made.Some? ==> s.recs[r].made.value.Ref() in s.atc.replies && s.recs[r].made.value.id > 0
  {
    assert ReconOk(s.history, s.atc, s.recs[r]);
    if s.recs[r].made.Some? { assert Listed(s.atc, s.recs[r].made.value.Ref()); }
  }

  /** Concourse moved on, and no build was created for this Build. */
  lemma AtcStep(s: State, k: Atc)
    requires Inv(s) && AtcOk(k) && Grows(s.atc, k) && k.replies == s.atc.replies && k.home == s.atc.home
    requires k.aborts != {} ==> AbortAsked(s.history)
    ensures Inv(s.(atc := k))
  {
    HistoryGrows(s.history, s.lastEdit, s.atc, k);
    ReconsGrow(s.history, s.atc, s.history, k, s.recs);
  }

  lemma AbortCalled(s: State, at: nat, ref: BuildRef)
    requires Inv(s) && at < |s.history| && s.history[at].spec.abort
    ensures Inv(s.(atc := s.atc.(aborts := s.atc.aborts + {ref})))
  {
    assert AbortAsked(s.history);
    AtcStep(s, s.atc.(aborts := s.atc.aborts + {ref}));
  }

  lemma StepAbort(s: State, r: nat)
    requires Inv(s) && At(s, r, Aborting) && s.recs[r].at < |s.history|
    ensures Inv(DoAbort(s, r))
  {
    var c := s.recs[r];
    var ref := Target(s.history, c);
    WorkingIdIsSet(s, r);
    assert ReconOk(s.history, s.atc, c);
    var s1 := s;
    if s.history[c.at].spec.abort {
      AbortCalled(s, c.at, ref);
      s1 := s.(atc := s.atc.(aborts := s.atc.aborts + {ref}));
    }
    assert ReconOk(s1.history, s1.atc, c.(pc := Refreshing));
    MoveStep(s1, r, c.(pc := Refreshing));
  }

  lemma StepRefresh(s: State, r: nat, found: bool)
    requires Inv(s) && At(s, r, Refreshing) && s.recs[r].at < |s.history|
    requires found ==> Target(s.history, s.recs[r]) in s.atc.server
    ensures Inv(DoRefresh(s, r, found))
  {
    var c := s.recs[r];
    var o := s.history[c.at];
    var w := Working(s.history, c);
    var reply := if w.id != 0 && found then Some(s.atc.server[Target(s.history, c)]) else None;
    assert ReconOk(s.history, s.atc, c);
    assert Good(o.status, s.atc) && ObservedOk(o);
    WorkingIdIsSet(s, r);
    if reply.Some? { assert Listed(s.atc, Target(s.history, c)); }
    DraftIsGood(o.status, w, c.made, reply, o.generation, s.atc);
    var c' := c.(pc := Writing, draft := Concluded(WithRefresh(w, reply), o.generation));
    assert ReconOk(s.history, s.atc, c');
    MoveStep(s, r, c');
  }

  lemma ReplyGrows(k: Atc, b: AtcBuild)
    requires AtcOk(k) && FreshBuild(k, b)
    ensures Grows(k, Replied(k, b)) && AtcOk(Replied(k, b)) && b.Ref() !in k.replies && Replied(k, b).home == k.home
  {}

  /** Concourse creates a build for this Build; `c` is where reconcile `r` goes if it gets the reply. */
  lemma StepMade(s: State, r: nat, b: AtcBuild, c: Recon)
    requires Inv(s) && At(s, r, Creating) && FreshBuild(s.atc, b) && b.site == s.recs[r].site
    requires c == s.recs[r].(pc := Aborting, made := Some(b))
    ensures Inv(s.(atc := Replied(s.atc, b), recs := s.recs[r := c]))
    ensures Inv(s.(atc := Replied(s.atc, b), orphans := s.orphans + {b.Ref()}))
  {
    var k := Replied(s.atc, b);
    assert ReconOk(s.history, s.atc, s.recs[r]);
    MadeFrames(s, b);
    assert ReconOk(s.history, k, c);
    AccountedMade(s.Stored(), s.atc.replies, s.orphans, s.recs, b, r, c);
  }

  lemma MadeFrames(s: State, b: AtcBuild)
    requires Inv(s) && FreshBuild(s.atc, b)
    ensures var k := Replied(s.atc, b);
            && AtcOk(k) && k.home == s.atc.home && k.aborts == s.atc.aborts
            && HistoryOk(s.history, s.lastEdit, k) && ReconsOk(s.history, k, s.recs)
    ensures b.Ref() !in s.atc.replies && b.Ref() != s.Stored()
  {
    var k := Replied(s.atc, b);
    ReplyGrows(s.atc, b);
    HistoryGrows(s.history, s.lastEdit, s.atc, k);
    ReconsGrow(s.history, s.atc, s.history, k, s.recs);
    assert Good(s.history[|s.history| - 1].status, s.atc);
  }

  lemma StepCreate(s: State, r: nat, outcome: CreateOutcome, b: AtcBuild)
    requires Inv(s) && At(s, r, Creating) && s.recs[r].at < |s.history|
    requires outcome.Refused? || (FreshBuild(s.atc, b) && b.site == s.recs[r].site)
    ensures Inv(DoCreate(s, r, outcome, b))
  {
    if outcome.Refused? {
      StepNotReady(s, r, "TriggerFailed");
    } else {
      StepMade(s, r, b, s.recs[r].(pc := Aborting, made := Some(b)));
      if outcome.MadeUnacked? {
        StepNotReady(s.(atc := Replied(s.atc, b), orphans := s.orphans + {b.Ref()}), r, "TriggerFailed");
      }
    }
  }

  /** The draft of reconcile `r` is stored on home server `k.home`; it may follow the current status. */
  lemma LandedStep(s: State, r: nat, recs: map<nat, Recon>, queued: bool, timer: bool)
    requires r in s.recs && s.seen < |s.history| && AtcOk(s.atc) && (s.atc.aborts != {} ==> AbortAsked(s.history))
    requires var draft, k := s.recs[r].draft, s.atc.(home := HomeOf(s.atc, s.recs[r]));
             && HistoryOk(s.history, s.lastEdit, k)
             && Good(draft, k) && Evolves(Last(s.history).status, draft)
             && draft.observed <= Last(s.history).generation
             && ReconsOk(PutStatus(s.history, draft), k, recs)
             && Accounted(BuildRef(k.home, draft.id), s.atc.replies, s.orphans, recs)
    ensures Inv(Landed(s, r, recs, queued, timer))
  {
    var draft := s.recs[r].draft;
    StatusLands(s.history, s.lastEdit, s.atc.(home := HomeOf(s.atc, s.recs[r])), draft);
    if s.atc.aborts != {} { AbortStillAsked(s.history, PutStatus(s.history, draft)); }
  }

  lemma StepReport(s: State, r: nat, fate: Fate)
    requires Inv(s) && r in s.recs && s.recs[r].pc.Reporting? && FateAllowed(s, r, fate)
    ensures Inv(DoReport(s, r, fate))
  {
    var c := s.recs[r];
    assert ReconOk(s.history, s.atc, c);
    if fate.Rejected? {
      ExitStep(s, r, false, c.pc.requeue);
    } else {
      var o := s.history[c.at];
      assert Good(o.status, s.atc) && ObservedOk(o);
      OnlyReadyIsGood(o.status, c.draft, s.atc);
      GrowsReflexive(s.atc);
      ReconsGrow(s.history, s.atc, PutStatus(s.history, c.draft), s.atc, s.recs - {r});
      AccountedKept(s.Stored(), s.atc.replies, s.orphans, s.recs, s.recs - {r});
      LandedStep(s, r, s.recs - {r}, s.queued, s.timer || c.pc.requeue);
    }
  }

  /** The build of the draft is accounted for as the stored one. */
  lemma DraftAccounted(s: State, r: nat, recs': map<nat, Recon>)
    requires Inv(s) && At(s, r, Writing) && IsCurrent(s.history, s.recs[r].at)
    requires forall q :: Held(recs', q) == if q == r then None else Held(s.recs, q)
    ensures Accounted(BuildRef(HomeOf(s.atc, s.recs[r]), s.recs[r].draft.id), s.atc.replies, s.orphans, recs')
  {
    var c := s.recs[r];
    assert ReconOk(s.history, s.atc, c);
    if c.made.Some? {
      assert forall ref <- s.atc.server :: Listed(s.atc, ref) && ref.id > 0;
      AccountedStored(s.Stored(), s.atc.replies, s.orphans, s.recs, r, recs');
    } else {
      AccountedKept(s.Stored(), s.atc.replies, s.orphans, s.recs, recs');
    }
  }

  /** The status write of reconcile `r` is stored; `r` ends or goes on to start a watcher. */
  lemma StepLanded(s: State, r: nat, recs': map<nat, Recon>, queued: bool)
    requires Inv(s) && At(s, r, Writing) && IsCurrent(s.history, s.recs[r].at)
    requires recs' == s.recs - {r} || recs' == Onward(s, r)
    ensures Inv(Landed(s, r, recs', queued, s.timer))
  {
    var k := s.atc.(home := HomeOf(s.atc, s.recs[r]));
    assert ReconOk(s.history, s.atc, s.recs[r]);
    if s.recs[r].made.Some? {
      HomeIsFree(s.history, s.lastEdit, s.atc, s.recs, k.home);
    } else {
      assert k == s.atc;
    }
    LandedReconsOk(s, k, r, recs');
    DraftAccounted(s, r, recs');
    LandedStep(s, r, recs', queued, s.timer);
  }

  lemma LandedReconsOk(s: State, k: Atc, r: nat, recs': map<nat, Recon>)
    requires |s.history| > 0 && ReconsOk(s.history, k, s.recs) && At(s, r, Writing)
    requires recs' == s.recs - {r} || recs' == Onward(s, r)
    ensures ReconsOk(PutStatus(s.history, s.recs[r].draft), k, recs')
  {
    var h' := PutStatus(s.history, s.recs[r].draft);
    assert ReconOk(s.history, k, s.recs[r]);
    GrowsReflexive(k);
    ReconsGrow(s.history, k, h', k, s.recs);
    assert h'[|h'| - 1].status == s.recs[r].draft;
  }

  lemma StepDie(s: State, r: nat)
    requires Inv(s) && r in s.recs
    ensures Inv(Exit(s.(orphans := s.orphans + MadeRefs(s.recs[r])), r, true, false))
  {
    AccountedOrphan(s.Stored(), s.atc.replies, s.orphans, s.recs, r);
  }

  lemma StepWrite(s: State, r: nat, fate: Fate)
    requires Inv(s) && At(s, r, Writing) && FateAllowed(s, r, fate)
    ensures Inv(DoWrite(s, r, fate))
  {
    match fate
    case Rejected => StepDie(s, r);
    case Unacked => StepLanded(s, r, s.recs - {r}, true);
    case Acked => StepLanded(s, r, Onward(s, r), s.queued);
  }

  /** A user's version: the status is untouched. */
  lemma StepVersion(s: State, v: BuildVersion, lastEdit': nat)
    requires Inv(s) && v.status == Last(s.history).status
    requires (Last(s.history).deleting ==> v.deleting) && Last(s.history).generation <= v.generation
    requires lastEdit' == |s.history| || (lastEdit' == s.lastEdit && v.spec == Last(s.history).spec)
    ensures Inv(s.(history := s.history + [v], lastEdit := lastEdit'))
  {
    var h := s.history;
    assert h[|h| - 1] == Last(h);
    AppendVersion(h, s.lastEdit, s.atc, v, lastEdit');
    GrowsReflexive(s.atc);
    ReconsGrow(h, s.atc, h + [v], s.atc, s.recs);
    if s.atc.aborts != {} { AbortStillAsked(h, h + [v]); }
  }

  lemma StepConcourse(s: State, b: AtcBuild)
    requires Inv(s) && b.id > 0 && b.phase != Unset
    requires b.Ref() in s.atc.server ==> NotAfter(s.atc.server[b.Ref()].phase, b.phase)
    ensures Inv(s.(atc := Reported(s.atc, b)))
  {
    AtcStep(s, Reported(s.atc, b));
  }

  lemma StepOutsideInv(s: State, a: Action, s': State)
    requires Inv(s) && IsStep(s, a, s')
    requires a.Fire? || a.Enqueue? || a.Deliver? || a.Vanish? || a.Edit? || a.MarkDeleting? || a.Progress? || a.Foreign?
    ensures Inv(s')
  {
    match a
    case Edit(spec) => StepVersion(s, Last(s'.history), |s.history|);
    case MarkDeleting => StepVersion(s, Last(s'.history), s.lastEdit);
    case Progress(b) => assert Listed(s.atc, b.Ref()); StepConcourse(s, b);
    case Foreign(b) => StepConcourse(s, b);
    case _ =>
  }

  lemma StepEndInv(s: State, a: Action, s': State)
    requires Inv(s) && IsStep(s, a, s')
    requires a.Report? || a.Write? || a.Spawn? || a.Die?
    ensures Inv(s')
  {
    match a
    case Report(r, fate) => StepReport(s, r, fate);
    case Write(r, fate) => StepWrite(s, r, fate);
    case Spawn(r) => assert ReconOk(s.history, s.atc, s.recs[r]); ExitStep(s, r, false, true);
    case Die(r) => StepDie(s, r);
  }

  lemma StepInv(s: State, a: Action, s': State)
    requires Inv(s) && IsStep(s, a, s')
    ensures Inv(s')
  {
    if IsOutside(a) && !a.Begin? {
      StepOutsideInv(s, a, s');
    } else if a.Report? || a.Write? || a.Spawn? || a.Die? {
      StepEndInv(s, a, s');
    } else {
      StepCallInv(s, a, s');
    }
  }

  /** The calls a reconcile makes before its final write. */
  lemma StepCallInv(s: State, a: Action, s': State)
    requires Inv(s) && IsStep(s, a, s')
    requires a.Begin? || a.Read? || a.ReadGone? || a.FindJob? || a.Resolve? || a.Create? || a.Abort? || a.Refresh?
    ensures Inv(s')
  {
    match a
    case Begin(r) => MoveStep(s, r, Recon(Reading, 0, "", None, EMPTY_STATUS));
    case Read(r, version) => StepRead(s, r, version);
    case ReadGone(r) => assert ReconOk(s.history, s.atc, s.recs[r]); ExitStep(s, r, false, false);
    case FindJob(r, lookup) => StepFindJob(s, r, lookup);
    case Resolve(r, ok, walk) => StepResolve(s, r, ok, SiteOf(s, r, walk));
    case Create(r, outcome, b) => StepCreate(s, r, outcome, b);
    case Abort(r) => StepAbort(s, r);
    case Refresh(r, found) => StepRefresh(s, r, found);
  }

  lemma {:induction false} RunInv(states: seq<State>, actions: seq<Action>, i: nat)
    requires IsRun(states, actions) && i < |states|
    ensures Inv(states[i])
  {
    if i == 0 {
      InitInv(states[0]);
    } else {
      RunInv(states, actions, i - 1);
      StepInv(states[i - 1], actions[i - 1], states[i]);
    }
  }

  // ----- Two states of one run -----

  /** The history is append-only and Concourse only moves on. */
  ghost predicate Advances(s: State, s': State) {
    s.history <= s'.history && Grows(s.atc, s'.atc) && s.orphans <= s'.orphans
  }

  /** What a step of reconcile `r` leaves alone: the other reconciles, the users' part, pending wake-ups. */
  ghost predicate StepOf(s: State, s': State, r: nat) {
    && (forall q <- s.recs | q != r :: q in s'.recs && s'.recs[q] == s.recs[q])
    && s'.recs.Keys <= s.recs.Keys + {r}
    && s'.gone == s.gone && s'.lastEdit == s.lastEdit && s'.seen == s.seen
    && (s.timer ==> s'.timer) && (s.queued ==> s'.queued)
    && Advances(s, s')
    && (s'.atc.replies == s.atc.replies || At(s, r, Creating))
    && (s'.history == s.history ||
        (r in s.recs && (s.recs[r].pc.Writing? || s.recs[r].pc.Reporting?)
         && |s.history| > 0 && s'.history == PutStatus(s.history, s.recs[r].draft)))
  }

  lemma GrowsReflexive(k: Atc)
    ensures Grows(k, k)
  {}

  lemma ExitIsStepOf(s: State, r: nat, orphans: set<BuildRef>, retry: bool, later: bool)
    requires s.orphans <= orphans
    ensures StepOf(s, Exit(s.(orphans := orphans), r, retry, later), r)
  {
    GrowsReflexive(s.atc);
  }

  lemma MoveIsStepOf(s: State, r: nat, c: Recon)
    ensures StepOf(s, s.(recs := s.recs[r := c]), r)
  {
    GrowsReflexive(s.atc);
  }

  lemma AbortIsStepOf(s: State, r: nat, aborts: set<BuildRef>, c: Recon)
    requires s.atc.aborts <= aborts
    ensures StepOf(s, s.(atc := s.atc.(aborts := aborts), recs := s.recs[r := c]), r)
  {}

  lemma CreateIsStepOf(s: State, r: nat, outcome: CreateOutcome, b: AtcBuild)
    requires AtcOk(s.atc) && At(s, r, Creating) && s.recs[r].at < |s.history|
    requires outcome.Refused? || FreshBuild(s.atc, b)
    ensures StepOf(s, DoCreate(s, r, outcome, b), r)
  {
    GrowsReflexive(s.atc);
    if !outcome.Refused? { ReplyGrows(s.atc, b); }
  }

  lemma LandedIsStepOf(s: State, r: nat, recs: map<nat, Recon>, queued: bool, timer: bool)
    requires recs.Keys <= s.recs.Keys + {r}
    requires r in s.recs && (s.recs[r].pc.Writing? || s.recs[r].pc.Reporting?) && |s.history| > 0
    requires (s.queued ==> queued) && (s.timer ==> timer)
    requires forall q <- s.recs | q != r :: q in recs && recs[q] == s.recs[q]
    ensures StepOf(s, Landed(s, r, recs, queued, timer), r)
  {
    GrowsReflexive(s.atc);
  }

  lemma ReportIsStepOf(s: State, r: nat, fate: Fate)
    requires r in s.recs && s.recs[r].pc.Reporting? && |s.history| > 0
    ensures StepOf(s, DoReport(s, r, fate), r)
  {
    if fate.Rejected? {
      ExitIsStepOf(s, r, s.orphans, false, s.recs[r].pc.requeue);
    } else {
      LandedIsStepOf(s, r, s.recs - {r}, s.queued, s.timer || s.recs[r].pc.requeue);
    }
  }

  lemma WriteIsStepOf(s: State, r: nat, fate: Fate)
    requires At(s, r, Writing) && |s.history| > 0
    ensures StepOf(s, DoWrite(s, r, fate), r)
  {
    match fate
    case Rejected => ExitIsStepOf(s, r, s.orphans + MadeRefs(s.recs[r]), true, false);
    case Unacked => LandedIsStepOf(s, r, s.recs - {r}, true, s.timer);
    case Acked => LandedIsStepOf(s, r, Onward(s, r), s.queued, s.timer);
  }

  lemma ReadIsStepOf(s: State, r: nat, version: nat)
    requires r in s.recs && version < |s.history|
    ensures StepOf(s, DoRead(s, r, version), r)
  {
    var o := s.history[version];
    if o.deleting || Terminal(o.status.phase) {
      ExitIsStepOf(s, r, s.orphans, false, false);
    } else if o.spec.jobRef.None? {
      MoveIsStepOf(s, r, Recon(Reporting(false), version, "", None, NotReady(o.status, "NoJobRef")));
    } else {
      MoveIsStepOf(s, r, Recon(FindingJob, version, "", None, EMPTY_STATUS));
    }
  }

  lemma FindJobIsStepOf(s: State, r: nat, lookup: JobLookup)
    requires r in s.recs
    ensures StepOf(s, DoFindJob(s, r, lookup), r)
  {
    if lookup.JobFound? {
      MoveIsStepOf(s, r, s.recs[r].(pc := Resolving(lookup.job)));
    } else {
      ExitIsStepOf(s, r, s.orphans, lookup.JobError?, false);
    }
  }

  lemma ResolveIsStepOf(s: State, r: nat, ok: bool, site: Site)
    requires r in s.recs && s.recs[r].at < |s.history|
    ensures StepOf(s, DoResolve(s, r, ok, site), r)
  {
    MoveIsStepOf(s, r, DoResolve(s, r, ok, site).recs[r]);
  }

  /** The actions of the queue, the users and Concourse, and the start of a reconcile. */
  predicate IsOutside(a: Action) {
    a.Begin? || a.Fire? || a.Enqueue? || a.Deliver? || a.Edit? || a.MarkDeleting? || a.Vanish? || a.Progress? || a.Foreign?
  }

  lemma CallStepOf(s: State, a: Action, s': State)
    requires AtcOk(s.atc) && IsStep(s, a, s')
    requires a.Create? || a.Resolve? || a.Abort? || a.Refresh?
    ensures StepOf(s, s', a.r)
  {
    match a
    case Create(r, outcome, b) => CreateIsStepOf(s, r, outcome, b);
    case Resolve(r, ok, walk) => ResolveIsStepOf(s, r, ok, SiteOf(s, r, walk));
    case Abort(r) => AbortIsStepOf(s, r, s'.atc.aborts, s.recs[r].(pc := Refreshing));
    case Refresh(r, found) => MoveIsStepOf(s, r, s'.recs[r]);
  }

  lemma LookupStepOf(s: State, a: Action, s': State)
    requires IsStep(s, a, s') && (a.Read? || a.FindJob?)
    ensures StepOf(s, s', a.r)
  {
    match a
    case Read(r, version) => ReadIsStepOf(s, r, version);
    case FindJob(r, lookup) => FindJobIsStepOf(s, r, lookup);
  }

  lemma EndStepOf(s: State, a: Action, s': State)
    requires IsStep(s, a, s')
    requires a.Report? || a.Write? || a.ReadGone? || a.Spawn? || a.Die?
    ensures StepOf(s, s', a.r)
  {
    match a
    case Report(r, fate) => ReportIsStepOf(s, r, fate);
    case Write(r, fate) => WriteIsStepOf(s, r, fate);
    case ReadGone(r) => ExitIsStepOf(s, r, s.orphans, false, false);
    case Spawn(r) => ExitIsStepOf(s, r, s.orphans, false, true);
    case Die(r) => ExitIsStepOf(s, r, s.orphans + MadeRefs(s.recs[r]), true, false);
  }

  lemma ReconcileStepOf(s: State, a: Action, s': State)
    requires AtcOk(s.atc) && IsStep(s, a, s') && !IsOutside(a)
    ensures StepOf(s, s', a.r)
  {
    if a.Create? || a.Resolve? || a.Abort? || a.Refresh? {
      CallStepOf(s, a, s');
    } else if a.Read? || a.FindJob? {
      LookupStepOf(s, a, s');
    } else {
      EndStepOf(s, a, s');
    }
  }

  lemma OutsideAdvances(s: State, a: Action, s': State)
    requires AtcOk(s.atc) && IsStep(s, a, s') && IsOutside(a)
    ensures Advances(s, s') && s'.atc.replies == s.atc.replies
    ensures forall q <- s.recs :: q in s'.recs && s'.recs[q] == s.recs[q]
  {
    GrowsReflexive(s.atc);
  }

  lemma AdvancesTransitive(s: State, m: State, s': State)
    requires Advances(s, m) && Advances(m, s')
    ensures Advances(s, s')
  {
    forall ref <- s.atc.server ensures NotAfter(s.atc.server[ref].phase, s'.atc.server[ref].phase) {
      assert NotAfter(s.atc.server[ref].phase, m.atc.server[ref].phase);
      assert NotAfter(m.atc.server[ref].phase, s'.atc.server[ref].phase);
    }
  }

  lemma StepAdvances(s: State, a: Action, s': State)
    requires AtcOk(s.atc) && IsStep(s, a, s')
    ensures Advances(s, s')
  {
    if IsOutside(a) { OutsideAdvances(s, a, s'); } else { ReconcileStepOf(s, a, s'); }
  }

  lemma RunStepAdvances(states: seq<State>, actions: seq<Action>, i: nat)
    requires IsRun(states, actions) && i < |actions|
    ensures Advances(states[i], states[i + 1])
  {
    RunInv(states, actions, i);
    StepAdvances(states[i], actions[i], states[i + 1]);
  }

  ghost predicate StepsAdvance(states: seq<State>) {
    forall k :: 0 <= k < |states| - 1 ==> Advances(states[k], states[k + 1])
  }

  lemma {:induction false} StepsAddUp(states: seq<State>, i: nat, j: nat)
    requires StepsAdvance(states) && i <= j < |states|
    ensures Advances(states[i], states[j])
  {
    if i == j {
      GrowsReflexive(states[i].atc);
    } else {
      StepsAddUp(states, i, j - 1);
      assert Advances(states[j - 1], states[j - 1 + 1]);
      AdvancesTransitive(states[i], states[j - 1], states[j]);
    }
  }

  lemma RunAdvances(states: seq<State>, actions: seq<Action>, i: nat, j: nat)
    requires IsRun(states, actions) && i <= j < |states|
    ensures Advances(states[i], states[j])
  {
    forall k | 0 <= k < |states| - 1 ensures Advances(states[k], states[k + 1]) { RunStepAdvances(states, actions, k); }
    StepsAddUp(states, i, j);
  }
}
