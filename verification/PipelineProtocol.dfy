/** The Pipeline reconciler with its drift detection by hash and its deletion pass, as a protocol: reconciles of
    one Pipeline run one after the other, each call is one action, reads may be stale, and spec and ConfigMap
    edits, conflicts and crashes come in between (internal/controller/pipeline_controller.go). `reference` is the
    server as a reconciler that applies the config on every pass would leave it under the same actions. */
module PipelineProtocol {
  import opened ApiServer
  import opened PipelineStatuses
  import opened Resolver

  datatype PC =
    | AddingFinalizer | Resolving | Loading | Applying | Pausing | Exposing | Fetching | Writing | Reporting
    | Deleting | RemovingFinalizer

  /** The running reconcile: version read, walk along the chain, config loaded, which of its calls succeeded, and
      its status. */
  datatype Recon =
    Recon(pc: PC, at: nat, walk: Option<Walk>, desired: string, applied: bool, pauseOk: bool, exposeOk: bool, draft: PipelineStatus)

  type PipelineVersion = Object<PipelineSpec, PipelineStatus>

  datatype State = State(
    namespace: string,
    history: seq<PipelineVersion>,
    maps: ConfigMaps,
    server: Server,
    reference: Server,
    deleted: bool,         // a delete call has taken effect
    gone: bool,            // the Pipeline has left the API server
    run: Option<Recon>)

  /** deletePipeline: the chain is not ready, the call fails, or the pipeline is deleted. */
  datatype DeleteOutcome = Unresolved | DeleteFailed | DeleteDone

  datatype Action =
    | Read(version: nat)
    | AddFinalizer(fate: Fate)
    | Resolve(ok: bool, walk: Walk)
    | Load(unreadable: bool)
    | Apply(reply: ApplyReply)
    | Pause(ok: bool)
    | Expose(ok: bool)
    | Fetch(ok: bool)
    | Write(fate: Fate)
    | Report(fate: Fate)
    | Delete(outcome: DeleteOutcome, walk: Walk)
    | RemoveFinalizer(fate: Fate)
    | Crash
    | Edit(spec: PipelineSpec)
    | EditMaps(maps: ConfigMaps)
    | MarkDeleting
    | Vanish

  predicate Init(s: State) {
    && |s.history| == 1 && s.history[0].status == EMPTY_STATUS && !s.history[0].deleting && !s.deleted && !s.gone
    && s.reference == s.server && s.run.None?
    && (s.server.Some? ==> s.server.value.id > 0)
  }

  predicate At(s: State, pc: PC) {
    s.run.Some? && s.run.value.pc == pc && s.run.value.at < |s.history|
  }

  predicate FateAllowed(s: State, fate: Fate)
    requires s.run.Some?
  {
    fate.Rejected? || (!s.gone && IsCurrent(s.history, s.run.value.at))
  }

  /** The resolver succeeds exactly on the chain of the Pipeline that was read. */
  ghost predicate Enabled(s: State, a: Action) {
    && |s.history| > 0
    && match a
       case Read(version) => s.run.None? && version < |s.history|
       case AddFinalizer(fate) => At(s, AddingFinalizer) && FateAllowed(s, fate)
       case Resolve(ok, walk) =>
         At(s, Resolving) && (ok <==> walk.PipelineResolves(s.namespace, s.history[s.run.value.at].spec.teamRef))
       case Load(_) => At(s, Loading)
       case Apply(reply) => At(s, Applying) && (reply.ApplyOk? ==> reply.newID > 0)
       case Pause(_) => At(s, Pausing)
       case Expose(_) => At(s, Exposing)
       case Fetch(_) => At(s, Fetching)
       case Write(fate) => At(s, Writing) && FateAllowed(s, fate)
       case Report(fate) => At(s, Reporting) && FateAllowed(s, fate)
       case Delete(outcome, walk) =>
         && At(s, Deleting)
         && (outcome.Unresolved? <==> !walk.PipelineResolves(s.namespace, s.history[s.run.value.at].spec.teamRef))
       case RemoveFinalizer(fate) => At(s, RemovingFinalizer) && FateAllowed(s, fate)
       case Crash => s.run.Some?
       case Edit(_) => !s.gone
       case EditMaps(_) => true
       case MarkDeleting => !s.gone
       case Vanish => Last(s.history).deleting && !Last(s.history).finalizer
  }

  function Goto(s: State, pc: PC, draft: PipelineStatus): State
    requires s.run.Some?
  {
    s.(run := Some(s.run.value.(pc := pc, draft := draft)))
  }

  function DoRead(s: State, version: nat): State
    requires version < |s.history|
  {
    var o := s.history[version];
    var c := Recon(Resolving, version, None, "", false, false, false, o.status);
    if o.deleting then (if o.finalizer then s.(run := Some(c.(pc := Deleting))) else s)
    else s.(run := Some(c.(pc := if o.finalizer then Resolving else AddingFinalizer)))
  }

  /** The object with its finalizer set or removed. */
  function PutFinalizer(history: seq<PipelineVersion>, finalizer: bool): seq<PipelineVersion>
    requires |history| > 0
  {
    history + [Last(history).(finalizer := finalizer)]
  }

  function DoAddFinalizer(s: State, fate: Fate): State
    requires s.run.Some? && |s.history| > 0
  {
    match fate
    case Rejected => s.(run := None)
    case Unacked => s.(run := None, history := PutFinalizer(s.history, true))
    case Acked => s.(run := Some(s.run.value.(pc := Resolving, at := |s.history|)), history := PutFinalizer(s.history, true))
  }

  /** Whatever became of the call, the finalizer is removed next. */
  function DoDelete(s: State, outcome: DeleteOutcome): State
    requires s.run.Some?
  {
    var s1 := Goto(s, RemovingFinalizer, s.run.value.draft);
    if outcome.DeleteDone? then s1.(server := None, reference := None, deleted := true) else s1
  }

  function DoRemoveFinalizer(s: State, fate: Fate): State
    requires s.run.Some? && |s.history| > 0
  {
    s.(run := None, history := if fate.Rejected? then s.history else PutFinalizer(s.history, false))
  }

  function DoResolve(s: State, ok: bool, walk: Walk): State
    requires s.run.Some?
  {
    var c := s.run.value;
    if ok then s.(run := Some(c.(pc := Loading, walk := Some(walk))))
    else Goto(s, Reporting, NotReady(c.draft, "TeamNotReady"))
  }

  function DoLoad(s: State, unreadable: bool): State
    requires s.run.Some? && s.run.value.at < |s.history|
  {
    var c := s.run.value;
    match LoadConfig(s.history[c.at].spec.config, s.maps, unreadable)
    case None => Goto(s, Reporting, NotReady(c.draft, "ConfigLoadFailed"))
    case Some(desired) => s.(run := Some(c.(pc := Applying, desired := desired)))
  }

  function DoApply(hash: HashFn, s: State, reply: ApplyReply): State
    requires s.run.Some?
  {
    var c := s.run.value;
    if !NeedsApply(hash, c.draft, c.desired) then
      var always := if reply.ApplyOk? then reply else ApplyOk(1, 0, 0, false);
      Goto(s, Pausing, c.draft).(reference := Applied(s.reference, c.desired, always))
    else if reply.ApplyError? then
      Goto(s, Reporting, StatusApplyFailed(c.draft))
    else
      s.(server := Applied(s.server, c.desired, reply), reference := Applied(s.reference, c.desired, reply),
         run := Some(c.(pc := Pausing, applied := true, draft := StatusApplied(c.draft, hash(c.desired), reply.warnings))))
  }

  function DoPause(s: State, ok: bool): State
    requires s.run.Some? && s.run.value.at < |s.history|
  {
    var c := s.run.value;
    var paused := s.history[c.at].spec.paused;
    if !ok then Goto(s, Exposing, c.draft)
    else s.(run := Some(c.(pc := Exposing, pauseOk := true, draft := c.draft.(paused := paused))),
            server := Paused(s.server, paused), reference := Paused(s.reference, paused))
  }

  function DoExpose(s: State, ok: bool): State
    requires s.run.Some? && s.run.value.at < |s.history|
  {
    var c := s.run.value;
    var exposed := s.history[c.at].spec.exposed;
    if !ok then Goto(s, Fetching, c.draft)
    else s.(run := Some(c.(pc := Fetching, exposeOk := true, draft := c.draft.(exposed := exposed))),
            server := Exposed(s.server, exposed), reference := Exposed(s.reference, exposed))
  }

  function DoFetch(s: State, ok: bool): State
    requires s.run.Some? && s.run.value.at < |s.history|
  {
    var c := s.run.value;
    var st := if ok then StatusFetched(c.draft, s.server) else c.draft;
    Goto(s, Writing, StatusReady(st, s.history[c.at].generation))
  }

  function DoWrite(s: State, fate: Fate): State
    requires s.run.Some? && |s.history| > 0
  {
    s.(run := None,
       history := if fate.Rejected? then s.history else PutStatus(s.history, s.run.value.draft))
  }

  function Do(hash: HashFn, s: State, a: Action): State
    requires Enabled(s, a)
  {
    match a
    case Read(version) => DoRead(s, version)
    case AddFinalizer(fate) => DoAddFinalizer(s, fate)
    case Resolve(ok, walk) => DoResolve(s, ok, walk)
    case Load(unreadable) => DoLoad(s, unreadable)
    case Apply(reply) => DoApply(hash, s, reply)
    case Pause(ok) => DoPause(s, ok)
    case Expose(ok) => DoExpose(s, ok)
    case Fetch(ok) => DoFetch(s, ok)
    case Write(fate) => DoWrite(s, fate)
    case Report(fate) => DoWrite(s, fate)
    case Delete(outcome, _) => DoDelete(s, outcome)
    case RemoveFinalizer(fate) => DoRemoveFinalizer(s, fate)
    case Crash => s.(run := None)
    case Edit(spec) => s.(history := PutSpec(s.history, spec))
    case EditMaps(maps) => s.(maps := maps)
    case MarkDeleting => s.(history := s.history + [Last(s.history).(deleting := true)])
    case Vanish => s.(gone := true)
  }

  /** The action loses the status of a config that was applied. */
  predicate LosesApply(s: State, a: Action) {
    s.run.Some? && s.run.value.applied && (a.Crash? || (a.Write? && a.fate.Rejected?))
  }

  ghost predicate IsRun(hash: HashFn, states: seq<State>, actions: seq<Action>) {
    && |states| == |actions| + 1
    && Init(states[0])
    && forall i :: 0 <= i < |actions| ==> Enabled(states[i], actions[i]) && states[i + 1] == Do(hash, states[i], actions[i])
  }

  /** No status write is lost after a successful apply. */
  ghost predicate Faithful(states: seq<State>, actions: seq<Action>, n: nat)
    requires n <= |actions| < |states|
  {
    forall i :: 0 <= i < n ==> !LosesApply(states[i], actions[i])
  }

  ghost predicate PastApply(pc: PC) {
    pc.Pausing? || pc.Exposing? || pc.Fetching? || pc.Writing?
  }

  /** Both servers hold the pipeline under one ID with the same flags. */
  ghost predicate SameFlags(a: Server, b: Server) {
    && (a.Some? <==> b.Some?)
    && (a.Some? ==> a.value.paused == b.value.paused && a.value.exposed == b.value.exposed && a.value.id == b.value.id)
  }

  predicate InDeletion(pc: PC) {
    pc.Deleting? || pc.RemovingFinalizer?
  }

  /** What a running reconcile knows, whatever was lost before. */
  ghost predicate ReconOk(hash: HashFn, s: State, c: Recon) {
    && c.at < |s.history|
    && (s.history[c.at].deleting <==> InDeletion(c.pc))
    && (c.applied ==> PastApply(c.pc))
    && (!c.applied ==> c.draft.hash == s.history[c.at].status.hash)
    && (PastApply(c.pc) ==>
          && c.draft.hash == hash(c.desired)
          && s.reference.Some? && s.reference.value.config == c.desired)
    && (c.applied ==> s.server.Some? && s.server.value.config == c.desired)
    && (c.pauseOk ==>
          && (c.pc.Exposing? || c.pc.Fetching? || c.pc.Writing?)
          && (s.server.Some? ==> s.server.value.paused == c.draft.paused == s.history[c.at].spec.paused))
    && (c.exposeOk ==>
          && (c.pc.Fetching? || c.pc.Writing?)
          && (s.server.Some? ==> s.server.value.exposed == c.draft.exposed == s.history[c.at].spec.exposed))
  }

  /** What holds in every run: deletion marks stay, and a delete call takes effect only after one. */
  ghost predicate Base(hash: HashFn, s: State) {
    && |s.history| > 0
    && (s.run.Some? ==> ReconOk(hash, s, s.run.value))
    && (forall v :: 0 <= v < |s.history| && s.history[v].deleting ==> Last(s.history).deleting)
    && (s.deleted ==> Last(s.history).deleting)
  }

  /** An applied config awaits its status write. */
  predicate Awaiting(s: State) {
    s.run.Some? && s.run.value.applied
  }

  /** What holds as long as no status write was lost after an apply. */
  ghost predicate Inv(hash: HashFn, s: State) {
    && Base(hash, s)
    && (!s.deleted ==>
          && (!Awaiting(s) ==> Match(hash, Last(s.history).status, s.server))
          && (forall v :: 0 <= v < |s.history| && s.history[v].status.hash != "" ==> s.server.Some?)
          && SameFlags(s.server, s.reference))
    && (s.deleted && !Awaiting(s) ==> s.server.None?)
  }

  // ----- Every step -----

  lemma ApplyKeepsBase(hash: HashFn, s: State, reply: ApplyReply)
    requires Base(hash, s) && At(s, Applying)
    ensures Base(hash, DoApply(hash, s, reply))
  {
    if reply.ApplyOk? { AppliedIsWanted(s.server, s.run.value.desired, reply); }
    ApplyMoves(hash, s, reply);
  }

  lemma AppliedIsWanted(server: Server, desired: string, reply: ApplyReply)
    requires reply.ApplyOk?
    ensures Applied(server, desired, reply).Some? && Applied(server, desired, reply).value.config == desired
  {}

  /** What the apply step leaves, in its three outcomes. */
  lemma ApplyMoves(hash: HashFn, s: State, reply: ApplyReply)
    requires At(s, Applying) && ReconOk(hash, s, s.run.value)
    ensures var c, s' := s.run.value, DoApply(hash, s, reply);
            && s'.run.Some? && s'.history == s.history && s'.deleted == s.deleted
            && var c' := s'.run.value;
            && c'.at == c.at && !c'.pauseOk && !c'.exposeOk
            && (c'.pc.Reporting? || c'.pc.Pausing?)
            && (c'.pc.Reporting? ==> c'.applied == c.applied && c'.draft.hash == c.draft.hash)
            && (c'.pc.Pausing? ==>
                  && c'.draft.hash == hash(c'.desired) && s'.reference.Some? && s'.reference.value.config == c'.desired
                  && (c'.applied ==> s'.server.Some? && s'.server.value.config == c'.desired)
                  && (!c'.applied ==> c'.draft == c.draft))
  {}

  lemma CallKeepsBase(hash: HashFn, s: State, a: Action)
    requires Base(hash, s) && Enabled(s, a)
    requires a.Resolve? || a.Load? || a.Delete?
    ensures Base(hash, Do(hash, s, a))
  {
    if a.Load? { LoadKeepsBase(hash, s, a.unreadable); } else if a.Delete? { DeleteKeepsBase(hash, s, a.outcome); }
  }

  lemma LoadKeepsBase(hash: HashFn, s: State, unreadable: bool)
    requires Base(hash, s) && At(s, Loading)
    ensures Base(hash, DoLoad(s, unreadable))
  {}

  lemma DeleteKeepsBase(hash: HashFn, s: State, outcome: DeleteOutcome)
    requires Base(hash, s) && At(s, Deleting)
    ensures Base(hash, DoDelete(s, outcome))
  {}

  lemma SyncKeepsBase(hash: HashFn, s: State, a: Action)
    requires Base(hash, s) && Enabled(s, a)
    requires a.Fetch? || a.Pause? || a.Expose?
    ensures Base(hash, Do(hash, s, a))
  {}

  lemma WriteKeepsBase(hash: HashFn, s: State, fate: Fate)
    requires Base(hash, s) && (At(s, Writing) || At(s, Reporting)) && FateAllowed(s, fate)
    ensures Base(hash, DoWrite(s, fate))
  {}

  lemma FinalizerKeepsBase(hash: HashFn, s: State, a: Action)
    requires Base(hash, s) && Enabled(s, a) && (a.AddFinalizer? || a.RemoveFinalizer?)
    ensures Base(hash, Do(hash, s, a))
  {}

  lemma OutsideKeepsBase(hash: HashFn, s: State, a: Action)
    requires Base(hash, s) && Enabled(s, a)
    requires a.Read? || a.Crash? || a.Edit? || a.EditMaps? || a.MarkDeleting? || a.Vanish?
    ensures Base(hash, Do(hash, s, a))
  {
    if a.Edit? || a.MarkDeleting? { VersionKeepsBase(hash, s, Last(Do(hash, s, a).history)); }
  }

  lemma VersionKeepsBase(hash: HashFn, s: State, v: PipelineVersion)
    requires Base(hash, s) && (Last(s.history).deleting ==> v.deleting)
    ensures Base(hash, s.(history := s.history + [v]))
  {}

  lemma StepBase(hash: HashFn, s: State, a: Action)
    requires GoodHash(hash) && Base(hash, s) && Enabled(s, a)
    ensures Base(hash, Do(hash, s, a))
  {
    if a.Apply? {
      ApplyKeepsBase(hash, s, a.reply);
    } else if a.Write? || a.Report? {
      WriteKeepsBase(hash, s, a.fate);
    } else if a.AddFinalizer? || a.RemoveFinalizer? {
      FinalizerKeepsBase(hash, s, a);
    } else if a.Read? || a.Crash? || a.Edit? || a.EditMaps? || a.MarkDeleting? || a.Vanish? {
      OutsideKeepsBase(hash, s, a);
    } else if a.Resolve? || a.Load? || a.Delete? {
      CallKeepsBase(hash, s, a);
    } else {
      SyncKeepsBase(hash, s, a);
    }
  }

  lemma {:induction false} RunBase(hash: HashFn, states: seq<State>, actions: seq<Action>, n: nat)
    requires GoodHash(hash) && IsRun(hash, states, actions) && n <= |actions|
    ensures Base(hash, states[n])
  {
    if n > 0 {
      RunBase(hash, states, actions, n - 1);
      StepBase(hash, states[n - 1], actions[n - 1]);
    }
  }

  // ----- Every step that loses no apply -----

  lemma ApplyKeepsInv(hash: HashFn, s: State, reply: ApplyReply)
    requires GoodHash(hash) && Inv(hash, s) && Enabled(s, Apply(reply))
    ensures Inv(hash, DoApply(hash, s, reply))
  {
    var c := s.run.value;
    ApplyKeepsBase(hash, s, reply);
    assert hash(c.desired) != "";
    if !NeedsApply(hash, c.draft, c.desired) { assert s.history[c.at].status.hash != ""; }
  }

  lemma CallKeepsInv(hash: HashFn, s: State, a: Action)
    requires Inv(hash, s) && Enabled(s, a)
    requires a.Resolve? || a.Load? || a.Delete?
    ensures Inv(hash, Do(hash, s, a))
  {
    CallKeepsBase(hash, s, a);
  }

  lemma SyncKeepsInv(hash: HashFn, s: State, a: Action)
    requires Inv(hash, s) && Enabled(s, a)
    requires a.Pause? || a.Expose? || a.Fetch?
    ensures Inv(hash, Do(hash, s, a))
  {
    SyncKeepsBase(hash, s, a);
  }

  lemma WriteKeepsInv(hash: HashFn, s: State, fate: Fate)
    requires GoodHash(hash) && Inv(hash, s) && (At(s, Writing) || At(s, Reporting)) && FateAllowed(s, fate)
    requires s.run.value.applied ==> !fate.Rejected?
    ensures Inv(hash, DoWrite(s, fate))
  {
    WriteKeepsBase(hash, s, fate);
  }

  lemma FinalizerKeepsInv(hash: HashFn, s: State, a: Action)
    requires Inv(hash, s) && Enabled(s, a) && (a.AddFinalizer? || a.RemoveFinalizer?)
    ensures Inv(hash, Do(hash, s, a))
  {
    FinalizerKeepsBase(hash, s, a);
  }

  lemma OutsideKeepsInv(hash: HashFn, s: State, a: Action)
    requires Inv(hash, s) && Enabled(s, a) && !LosesApply(s, a)
    requires a.Read? || a.Crash? || a.Edit? || a.EditMaps? || a.MarkDeleting? || a.Vanish?
    ensures Inv(hash, Do(hash, s, a))
  {
    OutsideKeepsBase(hash, s, a);
  }

  lemma StepInv(hash: HashFn, s: State, a: Action)
    requires GoodHash(hash) && Inv(hash, s) && Enabled(s, a) && !LosesApply(s, a)
    ensures Inv(hash, Do(hash, s, a))
  {
    if a.Apply? {
      ApplyKeepsInv(hash, s, a.reply);
    } else if a.Write? || a.Report? {
      WriteKeepsInv(hash, s, a.fate);
    } else if a.Pause? || a.Expose? || a.Fetch? {
      SyncKeepsInv(hash, s, a);
    } else if a.Resolve? || a.Load? || a.Delete? {
      CallKeepsInv(hash, s, a);
    } else if a.AddFinalizer? || a.RemoveFinalizer? {
      FinalizerKeepsInv(hash, s, a);
    } else {
      OutsideKeepsInv(hash, s, a);
    }
  }

  lemma {:induction false} RunInv(hash: HashFn, states: seq<State>, actions: seq<Action>, n: nat)
    requires GoodHash(hash) && IsRun(hash, states, actions) && n <= |actions| && Faithful(states, actions, n)
    ensures Inv(hash, states[n])
  {
    if n > 0 {
      RunInv(hash, states, actions, n - 1);
      StepInv(hash, states[n - 1], actions[n - 1]);
    }
  }

  // ----- What runs keep -----

  /** Whenever no applied config awaits its status write, a recorded hash is the hash of the config on the server if
      and only if no delete call has taken effect; so it always is for an object that is not marked deleted. */
  lemma RecordedHashMatchesServer(hash: HashFn, states: seq<State>, actions: seq<Action>, n: nat)
    requires GoodHash(hash) && IsRun(hash, states, actions) && n <= |actions| && Faithful(states, actions, n)
    requires !Awaiting(states[n])
    ensures |states[n].history| > 0
    ensures var s := states[n];
            && (Last(s.history).status.hash != "" ==> (Match(hash, Last(s.history).status, s.server) <==> !s.deleted))
            && (!Last(s.history).deleting ==> !s.deleted && Match(hash, Last(s.history).status, s.server))
  {
    RunInv(hash, states, actions, n);
  }

  /** Skipping refines applying always: whenever a pass gets its status stored, the server holds the
      config that pass loaded, and is what the reference reconciler would have left: same config, pause,
      exposure and ID. Pause and exposure are those of the spec the pass read, if their calls succeeded. */
  lemma SkippingRefinesApplying(hash: HashFn, states: seq<State>, actions: seq<Action>, n: nat)
    requires GoodHash(hash) && IsRun(hash, states, actions) && n < |actions| && Faithful(states, actions, n)
    requires actions[n].Write? && !actions[n].fate.Rejected?
    ensures var s := states[n + 1];
            && states[n].run.Some? && s.server.Some? && s.reference.Some?
            && s.server.value.config == s.reference.value.config == states[n].run.value.desired
            && SameFlags(s.server, s.reference)
            && var c := states[n].run.value;
            && c.at < |states[n].history|
            && (c.pauseOk ==> s.server.value.paused == c.draft.paused == states[n].history[c.at].spec.paused)
            && (c.exposeOk ==> s.server.value.exposed == c.draft.exposed == states[n].history[c.at].spec.exposed)
  {
    RunInv(hash, states, actions, n);
  }

  // ----- No call without its chain -----

  ghost predicate HasChain(s: State, c: Recon) {
    c.at < |s.history| && c.walk.Some? && c.walk.value.PipelineResolves(s.namespace, s.history[c.at].spec.teamRef)
  }

  /** A reconcile past the resolver has walked a ready chain. */
  ghost predicate ChainOk(s: State) {
    s.run.Some? && (s.run.value.pc.Loading? || s.run.value.pc.Applying? || PastApply(s.run.value.pc)) ==> HasChain(s, s.run.value)
  }

  lemma CallKeepsChain(hash: HashFn, s: State, a: Action)
    requires Enabled(s, a) && ChainOk(s)
    requires a.Resolve? || a.Load?
    ensures ChainOk(Do(hash, s, a))
  {}

  lemma ApplyKeepsChain(hash: HashFn, s: State, reply: ApplyReply)
    requires At(s, Applying) && ChainOk(s)
    ensures ChainOk(DoApply(hash, s, reply))
  {}

  lemma SyncKeepsChain(hash: HashFn, s: State, a: Action)
    requires Enabled(s, a) && ChainOk(s)
    requires a.Pause? || a.Expose? || a.Fetch?
    ensures ChainOk(Do(hash, s, a))
  {}

  lemma StepKeepsChain(hash: HashFn, s: State, a: Action)
    requires Enabled(s, a) && ChainOk(s)
    ensures ChainOk(Do(hash, s, a))
  {
    if a.Resolve? || a.Load? {
      CallKeepsChain(hash, s, a);
    } else if a.Apply? {
      ApplyKeepsChain(hash, s, a.reply);
    } else if a.Pause? || a.Expose? || a.Fetch? {
      SyncKeepsChain(hash, s, a);
    }
  }

  /** Apply, pause, expose and fetch reach Concourse only along a ready chain of the Pipeline, which the same
      reconcile has walked, and so does the delete call; whatever is lost or fails. */
  lemma NoCallWithoutChain(hash: HashFn, states: seq<State>, actions: seq<Action>, i: nat)
    requires IsRun(hash, states, actions) && i < |actions|
    requires var a := actions[i];
             a.Apply? || a.Pause? || a.Expose? || a.Fetch? || (a.Delete? && !a.outcome.Unresolved?)
    ensures states[i].run.Some?
    ensures var c := states[i].run.value;
            HasChain(states[i], if actions[i].Delete? then c.(walk := Some(actions[i].walk)) else c)
    ensures var s, c := states[i], states[i].run.value;
            var walk := if actions[i].Delete? then actions[i].walk else c.walk.value;
            TeamLinksReady(walk.cluster, s.namespace, s.history[c.at].spec.teamRef)
  {
    RunKeepsChain(hash, states, actions, i);
    var s, c := states[i], states[i].run.value;
    ResolvedLinksReady(if actions[i].Delete? then actions[i].walk else c.walk.value, s.namespace, s.history[c.at].spec.teamRef);
  }

  lemma {:induction false} RunKeepsChain(hash: HashFn, states: seq<State>, actions: seq<Action>, i: nat)
    requires IsRun(hash, states, actions) && i < |states|
    ensures ChainOk(states[i])
  {
    if i > 0 {
      RunKeepsChain(hash, states, actions, i - 1);
      StepKeepsChain(hash, states[i - 1], actions[i - 1]);
    }
  }
}
