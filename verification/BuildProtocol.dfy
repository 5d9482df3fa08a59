/** The Build lifecycle as a protocol between the API server, Concourse and any number of interleaved
    reconciles of one Build (internal/controller/build_controller.go, Reconcile). Every external call of
    a reconcile is one atomic action; reads may be stale, writes may conflict, replies may be lost. */
module BuildProtocol {
  import opened ApiServer
  import opened BuildStatuses
  import opened Resolver

  /** A Job as the reconcile of a Build reads it. */
  datatype Job = Job(name: string, pipelineRef: string)

  /** Where a reconcile stands. `Reporting` is a not-ready status write whose error is ignored. */
  datatype PC =
    | Reading
    | FindingJob
    | Resolving(job: Job)
    | Creating
    | Aborting
    | Refreshing
    | Writing
    | Reporting(requeue: bool)
    | Spawning

  /** One running reconcile: the version it read, the server its walk has ended at, the build it created itself
      (until that build is stored), and the status it is about to write. */
  datatype Recon = Recon(pc: PC, at: nat, site: Site, made: Option<AtcBuild>, draft: BuildStatus)

  /** All Concourse servers: their builds, everything they ever reported about a build, the builds created for
      this Build as first reported, the builds AbortBuild was called for, and the server of the stored build. */
  datatype Atc = Atc(
    server: map<BuildRef, AtcBuild>,
    records: set<AtcBuild>,
    replies: map<BuildRef, AtcBuild>,
    aborts: set<BuildRef>,
    home: Site)

  datatype State = State(
    namespace: string,
    history: seq<BuildVersion>,   // the stored Build
    gone: bool,                   // the Build has left the API server
    lastEdit: nat,                // version of the last spec edit (0: creation)
    seen: nat,                    // newest version whose watch event was delivered; reads are no older
    atc: Atc,
    orphans: set<BuildRef>,       // builds created whose ID was never stored and never will be
    recs: map<nat, Recon>,        // running reconciles
    queued: bool,                 // a request is in the work queue (also after an error)
    timer: bool)                  // a RequeueAfter timer is armed
  {
    predicate WellFormed() {
      && |history| > 0
      && lastEdit < |history|
      && seen < |history|
      && forall r <- recs :: !recs[r].pc.Reading? ==> recs[r].at < |history|
    }

    function Current(): BuildVersion
      requires |history| > 0
    {
      Last(history)
    }

    /** The build whose ID is stored. */
    function Stored(): BuildRef
      requires |history| > 0
    {
      BuildRef(atc.home, Current().status.id)
    }
  }

  datatype JobLookup = JobFound(job: Job) | JobMissing | JobError

  datatype CreateOutcome = Made | MadeUnacked | Refused

  datatype Action =
    // one reconcile
    | Begin(r: nat)
    | Read(r: nat, version: nat)
    | ReadGone(r: nat)
    | FindJob(r: nat, lookup: JobLookup)
    | Resolve(r: nat, ok: bool, walk: Walk)
    | Create(r: nat, outcome: CreateOutcome, b: AtcBuild)
    | Abort(r: nat)
    | Refresh(r: nat, found: bool)
    | Report(r: nat, fate: Fate)
    | Write(r: nat, fate: Fate)
    | Spawn(r: nat)
    | Die(r: nat)
    // work queue, timers and watch events
    | Fire
    | Enqueue
    | Deliver(version: nat)
    // users and Concourse
    | Edit(spec: BuildSpec)
    | MarkDeleting
    | Vanish
    | Progress(b: AtcBuild)
    | Foreign(b: AtcBuild)

  predicate Init(s: State) {
    && |s.history| == 1
    && s.history[0].status == EMPTY_STATUS
    && !s.history[0].deleting
    && !s.gone && s.lastEdit == 0 && s.seen == 0
    && s.atc.replies == map[] && s.atc.aborts == {} && s.orphans == {} && s.recs == map[]
    && s.queued && !s.timer
    && s.history[0].generation > 0
    && forall ref <- s.atc.server :: Listed(s.atc, ref)
  }

  /** The server lists the build under its own positive ID, with a phase, and has reported it so. */
  predicate Listed(k: Atc, ref: BuildRef)
    requires ref in k.server
  {
    ref.id > 0 && k.server[ref].Ref() == ref && k.server[ref].phase != Unset && k.server[ref] in k.records
  }

  /** Concourse now reports `b`. */
  function Reported(k: Atc, b: AtcBuild): Atc {
    k.(server := k.server[b.Ref() := b], records := k.records + {b})
  }

  /** Concourse created `b` for this Build. */
  function Replied(k: Atc, b: AtcBuild): Atc {
    Reported(k, b).(replies := k.replies[b.Ref() := b])
  }

  /** The status as the reconcile holds it after the create step. */
  function Working(history: seq<BuildVersion>, c: Recon): BuildStatus
    requires c.at < |history|
  {
    if c.made.Some? then WithCreated(history[c.at].status, c.made.value) else history[c.at].status
  }

  predicate At(s: State, r: nat, pc: PC) {
    r in s.recs && s.recs[r].pc == pc
  }

  /** A write of reconcile `r` can be stored only if the version it read is still current. */
  predicate FateAllowed(s: State, r: nat, fate: Fate)
    requires r in s.recs
  {
    fate.Rejected? || (!s.gone && IsCurrent(s.history, s.recs[r].at))
  }

  /** The build that the calls of the reconcile are about, on the server its walk has ended at. */
  function Target(history: seq<BuildVersion>, c: Recon): BuildRef
    requires c.at < |history|
  {
    BuildRef(c.site, Working(history, c).id)
  }

  /** Concourse assigns positive IDs that were never used before on that server. */
  predicate FreshBuild(k: Atc, b: AtcBuild) {
    b.id > 0 && b.Ref() !in k.server && b.phase != Unset
  }

  /** The Job found is the one the Build names, and the resolver succeeds exactly on the chain of that Job. */
  ghost predicate Enabled(s: State, a: Action)
    requires s.WellFormed()
  {
    match a
    case Begin(r) => r !in s.recs && s.queued
    case Read(r, version) => At(s, r, Reading) && s.seen <= version < |s.history|
    case ReadGone(r) => At(s, r, Reading) && s.gone
    case FindJob(r, lookup) =>
      At(s, r, FindingJob) && (lookup.JobFound? ==> s.history[s.recs[r].at].spec.jobRef == Some(lookup.job.name))
    case Resolve(r, ok, walk) =>
      r in s.recs && s.recs[r].pc.Resolving? && (ok <==> walk.JobResolves(s.namespace, s.recs[r].pc.job.pipelineRef))
    case Create(r, outcome, b) => At(s, r, Creating) && (outcome.Refused? || (b.site == s.recs[r].site && FreshBuild(s.atc, b)))
    case Abort(r) => At(s, r, Aborting)
    case Refresh(r, found) => At(s, r, Refreshing) && (found ==> Target(s.history, s.recs[r]) in s.atc.server)
    case Report(r, fate) => r in s.recs && s.recs[r].pc.Reporting? && FateAllowed(s, r, fate)
    case Write(r, fate) => At(s, r, Writing) && FateAllowed(s, r, fate)
    case Spawn(r) => At(s, r, Spawning)
    case Die(r) => r in s.recs
    case Fire => s.timer
    case Enqueue => true
    case Deliver(version) => s.seen < version < |s.history|
    case Edit(_) => !s.gone
    case MarkDeleting => !s.gone && !s.Current().deleting
    case Vanish => !s.gone
    case Progress(b) => b.Ref() in s.atc.server && b.phase != Unset && NotAfter(s.atc.server[b.Ref()].phase, b.phase)
    case Foreign(b) => FreshBuild(s.atc, b)
  }

  /** Reconcile `r` goes on working on the version it read. */
  predicate GoesOn(s: State, s': State, r: nat) {
    && r in s.recs && r in s'.recs
    && s'.recs[r].at == s.recs[r].at
    && s'.lastEdit == s.lastEdit
  }

  /** The reconcile returns: with an error or a re-list (`retry`), with RequeueAfter (`later`), or neither. */
  function Exit(s: State, r: nat, retry: bool, later: bool): State {
    s.(recs := s.recs - {r}, queued := s.queued || retry, timer := s.timer || later)
  }

  function Goto(s: State, r: nat, pc: PC): State
    requires r in s.recs
  {
    s.(recs := s.recs[r := s.recs[r].(pc := pc)])
  }

  function DoRead(s: State, r: nat, version: nat): State
    requires r in s.recs && version < |s.history|
  {
    var o := s.history[version];
    if o.deleting || Terminal(o.status.phase) then
      Exit(s, r, false, false)
    else if o.spec.jobRef.None? then
      s.(recs := s.recs[r := Recon(Reporting(false), version, "", None, NotReady(o.status, "NoJobRef"))])
    else
      s.(recs := s.recs[r := Recon(FindingJob, version, "", None, EMPTY_STATUS)])
  }

  function DoFindJob(s: State, r: nat, lookup: JobLookup): State
    requires r in s.recs
  {
    match lookup
    case JobFound(job) => Goto(s, r, Resolving(job))
    case JobMissing => Exit(s, r, false, false)
    case JobError => Exit(s, r, true, false)
  }

  function DoNotReady(s: State, r: nat, reason: string): (s': State)
    requires r in s.recs && s.recs[r].at < |s.history|
    ensures GoesOn(s, s', r)
  {
    var c := s.recs[r];
    s.(recs := s.recs[r := c.(pc := Reporting(true), draft := NotReady(s.history[c.at].status, reason))])
  }

  /** The server that the calls of reconcile `r` will go to if it walks `walk`. */
  function SiteOf(s: State, r: nat, walk: Walk): Site
    requires r in s.recs && s.recs[r].pc.Resolving?
  {
    walk.JobSite(s.namespace, s.recs[r].pc.job.pipelineRef)
  }

  function DoResolve(s: State, r: nat, ok: bool, site: Site): (s': State)
    requires r in s.recs && s.recs[r].at < |s.history|
    ensures GoesOn(s, s', r)
  {
    var c := s.recs[r];
    if !ok then
      DoNotReady(s, r, "ChainNotReady")
    else
      s.(recs := s.recs[r := c.(site := site, pc := if s.history[c.at].status.id == 0 then Creating else Aborting)])
  }

  function DoCreate(s: State, r: nat, outcome: CreateOutcome, b: AtcBuild): (s': State)
    requires r in s.recs && s.recs[r].at < |s.history|
    ensures GoesOn(s, s', r)
  {
    var s1 := s.(atc := Replied(s.atc, b));
    match outcome
    case Made => s1.(recs := s.recs[r := s.recs[r].(pc := Aborting, made := Some(b))])
    case MadeUnacked => DoNotReady(s1.(orphans := s.orphans + {b.Ref()}), r, "TriggerFailed")
    case Refused => DoNotReady(s, r, "TriggerFailed")
  }

  function DoAbort(s: State, r: nat): (s': State)
    requires r in s.recs && s.recs[r].at < |s.history|
    ensures GoesOn(s, s', r)
  {
    var c := s.recs[r];
    var ref := Target(s.history, c);
    var s1 := Goto(s, r, Refreshing);
    if s.history[c.at].spec.abort && ref.id != 0 then s1.(atc := s.atc.(aborts := s.atc.aborts + {ref})) else s1
  }

  function DoRefresh(s: State, r: nat, found: bool): (s': State)
    requires r in s.recs && s.recs[r].at < |s.history|
    requires found ==> Target(s.history, s.recs[r]) in s.atc.server
    ensures GoesOn(s, s', r)
  {
    var c := s.recs[r];
    var w := Working(s.history, c);
    var reply := if w.id != 0 && found then Some(s.atc.server[Target(s.history, c)]) else None;
    var draft := Concluded(WithRefresh(w, reply), s.history[c.at].generation);
    s.(recs := s.recs[r := c.(pc := Writing, draft := draft)])
  }

  /** The server of the build that the draft of the reconcile names. */
  function HomeOf(k: Atc, c: Recon): Site {
    if c.made.Some? then c.made.value.site else k.home
  }

  /** The draft of reconcile `r` becomes the stored status. */
  function Landed(s: State, r: nat, recs: map<nat, Recon>, queued: bool, timer: bool): State
    requires r in s.recs && |s.history| > 0
  {
    s.(history := PutStatus(s.history, s.recs[r].draft), recs := recs, queued := queued, timer := timer,
       atc := s.atc.(home := HomeOf(s.atc, s.recs[r])))
  }

  function DoReport(s: State, r: nat, fate: Fate): State
    requires r in s.recs && s.recs[r].pc.Reporting? && |s.history| > 0
  {
    var requeue := s.recs[r].pc.requeue;
    if fate.Rejected? then Exit(s, r, false, requeue)
    else Landed(s, r, s.recs - {r}, s.queued, s.timer || requeue)
  }

  function MadeRefs(c: Recon): set<BuildRef> {
    if c.made.Some? then {c.made.value.Ref()} else {}
  }

  /** Where a reconcile goes once its status is stored and acknowledged: it ends, or starts a watcher. */
  function Onward(s: State, r: nat): map<nat, Recon>
    requires r in s.recs && |s.history| > 0
  {
    var draft := s.recs[r].draft;
    if Terminal(draft.phase) then s.recs - {r}
    else s.recs[r := Recon(Spawning, |PutStatus(s.history, draft)| - 1, s.recs[r].site, None, draft)]
  }

  function DoWrite(s: State, r: nat, fate: Fate): State
    requires r in s.recs && |s.history| > 0
  {
    match fate
    case Rejected => Exit(s.(orphans := s.orphans + MadeRefs(s.recs[r])), r, true, false)
    case Unacked => Landed(s, r, s.recs - {r}, true, s.timer)
    case Acked => Landed(s, r, Onward(s, r), s.queued, s.timer)
  }

  function Do(s: State, a: Action): State
    requires s.WellFormed() && Enabled(s, a)
  {
    match a
    case Begin(r) => s.(queued := false, recs := s.recs[r := Recon(Reading, 0, "", None, EMPTY_STATUS)])
    case Read(r, version) => DoRead(s, r, version)
    case ReadGone(r) => Exit(s, r, false, false)
    case FindJob(r, lookup) => DoFindJob(s, r, lookup)
    case Resolve(r, ok, walk) => DoResolve(s, r, ok, SiteOf(s, r, walk))
    case Create(r, outcome, b) => DoCreate(s, r, outcome, b)
    case Abort(r) => DoAbort(s, r)
    case Refresh(r, found) => DoRefresh(s, r, found)
    case Report(r, fate) => DoReport(s, r, fate)
    case Write(r, fate) => DoWrite(s, r, fate)
    case Spawn(r) => Exit(s, r, false, true)
    case Die(r) => Exit(s.(orphans := s.orphans + MadeRefs(s.recs[r])), r, true, false)
    case Fire => s.(timer := false, queued := true)
    case Enqueue => s.(queued := true)
    case Deliver(version) => s.(seen := version, queued := true)
    case Edit(spec) => s.(history := PutSpec(s.history, spec), lastEdit := |s.history|)
    case MarkDeleting => s.(history := s.history + [s.Current().(deleting := true)])
    case Vanish => s.(gone := true)
    case Progress(b) => s.(atc := Reported(s.atc, b))
    case Foreign(b) => s.(atc := Reported(s.atc, b))
  }

  /** A run: states and the actions between them. */
  ghost predicate IsRun(states: seq<State>, actions: seq<Action>) {
    && |states| == |actions| + 1
    && Init(states[0])
    && forall i :: 0 <= i < |actions| ==> IsStep(states[i], actions[i], states[i + 1])
  }

  ghost predicate IsStep(s: State, a: Action, s': State) {
    s.WellFormed() && Enabled(s, a) && s' == Do(s, a)
  }
}
