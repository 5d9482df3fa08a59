/** Any number of threads in GetOrBuild, evictions by the Instance reconciler and secret rotations, in any
    interleaving: the cache never answers with a client that was not built for the caller's spec
    (internal/concourse/client_cache.go, internal/controller/instance_controller.go). */
module CacheThreads {
  import opened ApiServer
  import opened ClientCache

  datatype PC =
    | Calling                       // before Get
    | Missed                        // Get found nothing
    | Built(cl: Client)             // client built, not stored yet
    | Returned(reply: Option<Client>)  // None: building failed

  datatype Thread = Thread(instance: Instance, pc: PC)

  datatype State = State(store: Store, snapshots: seq<Secrets>, threads: map<nat, Thread>)

  datatype Action =
    | Call(t: nat, instance: Instance)
    | GetStep(t: nat)
    | BuildStep(t: nat)
    | SetStep(t: nat)
    | EvictStep(instance: Instance)
    | Rotate(secrets: Secrets)

  /** `specOf` fixes the spec of each namespace, name and resourceVersion. */
  type World = Ident -> InstanceSpec

  ghost predicate Legitimate(specOf: World, instance: Instance) {
    ValidIdent(instance.id) && instance.spec == specOf(instance.id)
  }

  predicate Init(s: State) {
    s.store == map[] && |s.snapshots| == 1 && s.threads == map[]
  }

  ghost predicate Enabled(specOf: World, s: State, a: Action) {
    match a
    case Call(t, instance) => t !in s.threads && Legitimate(specOf, instance)
    case GetStep(t) => t in s.threads && s.threads[t].pc.Calling?
    case BuildStep(t) => t in s.threads && s.threads[t].pc.Missed? && |s.snapshots| > 0
    case SetStep(t) => t in s.threads && s.threads[t].pc.Built?
    case EvictStep(instance) => Legitimate(specOf, instance)
    case Rotate(_) => true
  }

  function Goto(s: State, t: nat, pc: PC): State
    requires t in s.threads
  {
    s.(threads := s.threads[t := s.threads[t].(pc := pc)])
  }

  function DoGet(s: State, t: nat): State
    requires t in s.threads
  {
    var key := CacheKey(s.threads[t].instance.id);
    if key in s.store then Goto(s, t, Returned(Some(s.store[key]))) else Goto(s, t, Missed)
  }

  function DoBuild(s: State, t: nat): State
    requires t in s.threads && |s.snapshots| > 0
  {
    var instance := s.threads[t].instance;
    match BuildClient(instance.id.namespace, instance.spec, Last(s.snapshots))
    case None => Goto(s, t, Returned(None))
    case Some(cl) => Goto(s, t, Built(cl))
  }

  function DoSet(s: State, t: nat): State
    requires t in s.threads && s.threads[t].pc.Built?
  {
    var cl := s.threads[t].pc.cl;
    Goto(s, t, Returned(Some(cl))).(store := WithClient(s.store, s.threads[t].instance.id, cl))
  }

  ghost function Do(specOf: World, s: State, a: Action): State
    requires Enabled(specOf, s, a)
  {
    match a
    case Call(t, instance) => s.(threads := s.threads[t := Thread(instance, Calling)])
    case GetStep(t) => DoGet(s, t)
    case BuildStep(t) => DoBuild(s, t)
    case SetStep(t) => DoSet(s, t)
    case EvictStep(instance) => s.(store := Evicted(s.store, instance.id))
    case Rotate(secrets) => s.(snapshots := s.snapshots + [secrets])
  }

  /** Any number of steps from any state. */
  ghost predicate IsPath(specOf: World, states: seq<State>, actions: seq<Action>) {
    && |states| == |actions| + 1
    && forall i :: 0 <= i < |actions| ==>
         Enabled(specOf, states[i], actions[i]) && states[i + 1] == Do(specOf, states[i], actions[i])
  }

  ghost predicate IsRun(specOf: World, states: seq<State>, actions: seq<Action>) {
    IsPath(specOf, states, actions) && Init(states[0])
  }

  ghost predicate EntryOk(specOf: World, s: State, k: string)
    requires k in s.store
  {
    exists id :: ValidIdent(id) && CacheKey(id) == k && BuiltFor(s.snapshots, id.namespace, specOf(id), s.store[k])
  }

  ghost predicate ThreadOk(specOf: World, s: State, th: Thread) {
    && Legitimate(specOf, th.instance)
    && (th.pc.Built? ==> BuiltFor(s.snapshots, th.instance.id.namespace, th.instance.spec, th.pc.cl))
    && (th.pc.Returned? ==> ReplyOk(s.snapshots, th.instance.id.namespace, th.instance.spec, th.pc.reply))
  }

  /** A reply is what building gave with the secrets of some time, be it a client or a failure. */
  ghost predicate ReplyOk(snapshots: seq<Secrets>, namespace: string, spec: InstanceSpec, reply: Option<Client>) {
    exists n :: 0 <= n < |snapshots| && BuildClient(namespace, spec, snapshots[n]) == reply
  }

  ghost predicate Inv(specOf: World, s: State) {
    && |s.snapshots| > 0
    && (forall k <- s.store :: EntryOk(specOf, s, k))
    && (forall t <- s.threads :: ThreadOk(specOf, s, s.threads[t]))
    && OneEntryEach(s.store)
  }

  /** What is stored under the key of an Instance was built for its spec. */
  lemma HitIsOwn(specOf: World, s: State, instance: Instance)
    requires Inv(specOf, s) && Legitimate(specOf, instance) && HasEntry(s.store, instance.id)
    ensures BuiltFor(s.snapshots, instance.id.namespace, instance.spec, s.store[CacheKey(instance.id)])
  {
    var key := CacheKey(instance.id);
    assert EntryOk(specOf, s, key);
    var i :| ValidIdent(i) && CacheKey(i) == key && BuiltFor(s.snapshots, i.namespace, specOf(i), s.store[key]);
    KeyIsInjective(i, instance.id);
  }

  /** Thread `t` moves to `pc`; nothing else changes. */
  lemma MoveKeepsInv(specOf: World, s: State, t: nat, pc: PC)
    requires Inv(specOf, s) && t in s.threads && ThreadOk(specOf, s, s.threads[t].(pc := pc))
    ensures Inv(specOf, Goto(s, t, pc))
  {
    var s' := Goto(s, t, pc);
    forall k <- s'.store ensures EntryOk(specOf, s', k) { assert EntryOk(specOf, s, k); }
    forall u <- s'.threads ensures ThreadOk(specOf, s', s'.threads[u]) {
      if u != t { assert ThreadOk(specOf, s, s.threads[u]); }
    }
  }

  lemma GetKeepsInv(specOf: World, s: State, t: nat)
    requires Inv(specOf, s) && Enabled(specOf, s, GetStep(t))
    ensures Inv(specOf, DoGet(s, t))
  {
    var instance := s.threads[t].instance;
    assert ThreadOk(specOf, s, s.threads[t]);
    if HasEntry(s.store, instance.id) {
      HitIsOwn(specOf, s, instance);
      MoveKeepsInv(specOf, s, t, Returned(Some(s.store[CacheKey(instance.id)])));
    } else {
      MoveKeepsInv(specOf, s, t, Missed);
    }
  }

  lemma BuildKeepsInv(specOf: World, s: State, t: nat)
    requires Inv(specOf, s) && Enabled(specOf, s, BuildStep(t))
    ensures Inv(specOf, DoBuild(s, t))
  {
    var instance := s.threads[t].instance;
    assert ThreadOk(specOf, s, s.threads[t]);
    var built := BuildClient(instance.id.namespace, instance.spec, s.snapshots[|s.snapshots| - 1]);
    if built.Some? {
      assert BuiltFor(s.snapshots, instance.id.namespace, instance.spec, built.value);
      MoveKeepsInv(specOf, s, t, Built(built.value));
    } else {
      MoveKeepsInv(specOf, s, t, Returned(None));
    }
  }

  lemma SetKeepsInv(specOf: World, s: State, t: nat)
    requires Inv(specOf, s) && Enabled(specOf, s, SetStep(t))
    ensures Inv(specOf, DoSet(s, t))
  {
    var s' := DoSet(s, t);
    var id := s.threads[t].instance.id;
    assert ThreadOk(specOf, s, s.threads[t]);
    SetKeepsOneEntry(s.store, id, s.threads[t].pc.cl);
    forall k <- s'.store ensures EntryOk(specOf, s', k) {
      if k != CacheKey(id) { assert EntryOk(specOf, s, k); }
    }
  }

  lemma EvictKeepsInv(specOf: World, s: State, instance: Instance)
    requires Inv(specOf, s) && Legitimate(specOf, instance)
    ensures Inv(specOf, s.(store := Evicted(s.store, instance.id)))
  {
    var s' := s.(store := Evicted(s.store, instance.id));
    SetKeepsOneEntry(s.store, instance.id, Client(instance.spec, map[]));
    forall k <- s'.store ensures EntryOk(specOf, s', k) { assert EntryOk(specOf, s, k); }
  }

  lemma RotateKeepsInv(specOf: World, s: State, secrets: Secrets)
    requires Inv(specOf, s)
    ensures Inv(specOf, s.(snapshots := s.snapshots + [secrets]))
  {
    var s' := s.(snapshots := s.snapshots + [secrets]);
    forall ns, spec, cl | BuiltFor(s.snapshots, ns, spec, cl) ensures BuiltFor(s'.snapshots, ns, spec, cl) {
      var n :| 0 <= n < |s.snapshots| && BuildClient(ns, spec, s.snapshots[n]) == Some(cl);
      assert s'.snapshots[n] == s.snapshots[n];
    }
    forall ns, spec, reply | ReplyOk(s.snapshots, ns, spec, reply) ensures ReplyOk(s'.snapshots, ns, spec, reply) {
      var n :| 0 <= n < |s.snapshots| && BuildClient(ns, spec, s.snapshots[n]) == reply;
      assert s'.snapshots[n] == s.snapshots[n];
    }
    forall k <- s'.store ensures EntryOk(specOf, s', k) { assert EntryOk(specOf, s, k); }
  }

  lemma CallKeepsInv(specOf: World, s: State, t: nat, instance: Instance)
    requires Inv(specOf, s) && Enabled(specOf, s, Call(t, instance))
    ensures Inv(specOf, Do(specOf, s, Call(t, instance)))
  {
    var s' := Do(specOf, s, Call(t, instance));
    forall k <- s'.store ensures EntryOk(specOf, s', k) { assert EntryOk(specOf, s, k); }
  }

  lemma StepInv(specOf: World, s: State, a: Action)
    requires Inv(specOf, s) && Enabled(specOf, s, a)
    ensures Inv(specOf, Do(specOf, s, a))
  {
    match a
    case Call(t, instance) => CallKeepsInv(specOf, s, t, instance);
    case GetStep(t) => GetKeepsInv(specOf, s, t);
    case BuildStep(t) => BuildKeepsInv(specOf, s, t);
    case SetStep(t) => SetKeepsInv(specOf, s, t);
    case EvictStep(instance) => EvictKeepsInv(specOf, s, instance);
    case Rotate(secrets) => RotateKeepsInv(specOf, s, secrets);
  }

  lemma {:induction false} RunInv(specOf: World, states: seq<State>, actions: seq<Action>, i: nat)
    requires IsRun(specOf, states, actions) && i < |states|
    ensures Inv(specOf, states[i])
  {
    if i > 0 {
      RunInv(specOf, states, actions, i - 1);
      StepInv(specOf, states[i - 1], actions[i - 1]);
    }
  }

  /** Cache refines no cache: every reply of GetOrBuild, a client or a failure, is what building for the caller's
      own spec gave at some time; while no secret is rotated, it is what building gives now. */
  lemma CacheRefinesBuilding(specOf: World, states: seq<State>, actions: seq<Action>, i: nat, t: nat)
    requires IsRun(specOf, states, actions) && i < |states|
    requires t in states[i].threads && states[i].threads[t].pc.Returned?
    ensures var th := states[i].threads[t];
            && (th.pc.reply.Some? ==> th.pc.reply.value.spec == th.instance.spec)
            && (exists n :: 0 <= n < |states[i].snapshots|
                  && BuildClient(th.instance.id.namespace, th.instance.spec, states[i].snapshots[n]) == th.pc.reply)
            && (|states[i].snapshots| == 1 ==>
                  BuildClient(th.instance.id.namespace, th.instance.spec, states[i].snapshots[0]) == th.pc.reply)
  {
    RunInv(specOf, states, actions, i);
    assert ThreadOk(specOf, states[i], states[i].threads[t]);
  }

  lemma Extend(specOf: World, states: seq<State>, actions: seq<Action>, a: Action)
      returns (states': seq<State>, actions': seq<Action>)
    requires IsRun(specOf, states, actions) && Enabled(specOf, Last(states), a)
    ensures IsRun(specOf, states', actions') && actions' == actions + [a]
    ensures Last(states') == Do(specOf, Last(states), a)
  {
    states', actions' := states + [Do(specOf, Last(states), a)], actions + [a];
  }

  lemma LookUpAlone(specOf: World, states: seq<State>, actions: seq<Action>, t: nat, instance: Instance)
      returns (states': seq<State>, actions': seq<Action>)
    requires IsRun(specOf, states, actions) && t !in Last(states).threads && Legitimate(specOf, instance)
    ensures IsRun(specOf, states', actions') && actions' == actions + [Call(t, instance), GetStep(t)]
    ensures var s, s', key := Last(states), Last(states'), CacheKey(instance.id);
            && s'.threads == s.threads[t := Thread(instance, if key in s.store then Returned(Some(s.store[key])) else Missed)]
            && s'.store == s.store && s'.snapshots == s.snapshots
  {
    states', actions' := Extend(specOf, states, actions, Call(t, instance));
    states', actions' := Extend(specOf, states', actions', GetStep(t));
  }

  lemma BuildAlone(specOf: World, states: seq<State>, actions: seq<Action>, t: nat, instance: Instance, built: Option<Client>)
      returns (states': seq<State>, actions': seq<Action>)
    requires IsRun(specOf, states, actions) && t in Last(states).threads && Last(states).threads[t] == Thread(instance, Missed)
    requires |Last(states).snapshots| > 0
    requires built == BuildClient(instance.id.namespace, instance.spec, Last(Last(states).snapshots))
    ensures IsRun(specOf, states', actions')
    ensures actions' == actions + if built.None? then [BuildStep(t)] else [BuildStep(t), SetStep(t)]
    ensures var s, s' := Last(states), Last(states');
            && s'.threads == s.threads[t := Thread(instance, Returned(built))]
            && s'.store == (if built.None? then s.store else WithClient(s.store, instance.id, built.value))
            && s'.snapshots == s.snapshots
  {
    states', actions' := Extend(specOf, states, actions, BuildStep(t));
    if built.Some? {
      states', actions' := Extend(specOf, states', actions', SetStep(t));
    }
  }

  /** What a call leaves that nothing interleaves with. */
  ghost predicate CalledAlone(s: State, t: nat, instance: Instance, s': State)
    requires |s.snapshots| > 0
  {
    var key, built := CacheKey(instance.id), BuildClient(instance.id.namespace, instance.spec, Last(s.snapshots));
    && s'.threads == s.threads[t := Thread(instance, Returned(if key in s.store then Some(s.store[key]) else built))]
    && s'.store == (if key in s.store || built.None? then s.store else WithClient(s.store, instance.id, built.value))
    && s'.snapshots == s.snapshots
  }

  lemma SecretsAreThere(specOf: World, states: seq<State>, actions: seq<Action>)
    requires IsRun(specOf, states, actions)
    ensures |Last(states).snapshots| > 0
  {
    RunInv(specOf, states, actions, |actions|);
  }

  /** Every run goes on with a call that nothing interleaves with. It always returns: the stored client on a hit,
      else what building gives now, which it stores unless building failed. */
  lemma AloneIsGetOrBuild(specOf: World, states: seq<State>, actions: seq<Action>, t: nat, instance: Instance)
      returns (states': seq<State>, actions': seq<Action>)
    requires IsRun(specOf, states, actions) && t !in Last(states).threads && Legitimate(specOf, instance)
    ensures IsRun(specOf, states', actions') && |Last(states).snapshots| > 0
    ensures var looked := actions + [Call(t, instance), GetStep(t)];
            actions' in {looked, looked + [BuildStep(t)], looked + [BuildStep(t), SetStep(t)]}
    ensures CalledAlone(Last(states), t, instance, Last(states'))
  {
    ghost var s := Last(states);
    SecretsAreThere(specOf, states, actions);
    states', actions' := LookUpAlone(specOf, states, actions, t, instance);
    if CacheKey(instance.id) !in s.store {
      var built := BuildClient(instance.id.namespace, instance.spec, Last(s.snapshots));
      states', actions' := BuildAlone(specOf, states', actions', t, instance, built);
    }
  }

  /** In every reachable store each Instance has at most one entry, and every entry belongs to one. */
  lemma StoreShape(specOf: World, states: seq<State>, actions: seq<Action>, i: nat)
    requires IsRun(specOf, states, actions) && i < |states|
    ensures OneEntryEach(states[i].store)
    ensures forall k <- states[i].store :: exists id :: ValidIdent(id) && CacheKey(id) == k
  {
    RunInv(specOf, states, actions, i);
    forall k <- states[i].store ensures exists id :: ValidIdent(id) && CacheKey(id) == k {
      assert EntryOk(specOf, states[i], k);
    }
  }

  // ----- What eviction promises -----

  /** A call for the Instance is on its way. */
  ghost predicate Pending(s: State, id: Ident) {
    exists t <- s.threads :: SameInstance(s.threads[t].instance.id, id) && !s.threads[t].pc.Returned?
  }

  ghost predicate Absent(s: State, id: Ident) {
    forall i :: ValidIdent(i) && SameInstance(i, id) ==> !HasEntry(s.store, i)
  }

  ghost predicate IsCallFor(a: Action, id: Ident) {
    a.Call? && SameInstance(a.instance.id, id)
  }

  /** The steps lead from `s` to a store with an entry of the Instance, with no new call for it. */
  ghost predicate Restores(specOf: World, s: State, states: seq<State>, actions: seq<Action>, id: Ident) {
    && IsPath(specOf, states, actions) && states[0] == s
    && (forall a <- actions :: !IsCallFor(a, id))
    && !Absent(states[|actions|], id)
  }

  ghost predicate CanReturn(specOf: World, s: State, id: Ident) {
    exists states, actions :: Restores(specOf, s, states, actions, id)
  }

  /** With no call pending, an evicted Instance stays out of the cache until it is called for again. */
  lemma EvictionLasts(specOf: World, s: State, a: Action, id: Ident)
    requires Inv(specOf, s) && ValidIdent(id) && Enabled(specOf, s, a)
    requires Absent(s, id) && !Pending(s, id) && !IsCallFor(a, id)
    ensures Absent(Do(specOf, s, a), id) && !Pending(Do(specOf, s, a), id)
  {
    var s' := Do(specOf, s, a);
    assert forall t <- s.threads :: SameInstance(s.threads[t].instance.id, id) ==> s.threads[t].pc.Returned?;
    assert forall t <- s'.threads :: SameInstance(s'.threads[t].instance.id, id) ==> s'.threads[t].pc.Returned?;
    if a.SetStep? {
      var other := s.threads[a.t].instance.id;
      forall i | ValidIdent(i) && SameInstance(i, id) ensures !HasEntry(s'.store, i) {
        assert ThreadOk(specOf, s, s.threads[a.t]);
        OthersUntouched(s.store, other, s.threads[a.t].pc.cl, i);
      }
    }
  }

  lemma {:induction false} EvictionLastsOverSteps(specOf: World, states: seq<State>, actions: seq<Action>, id: Ident, k: nat)
    requires IsPath(specOf, states, actions) && k < |states| && ValidIdent(id)
    requires Inv(specOf, states[0]) && Absent(states[0], id) && !Pending(states[0], id)
    requires forall a <- actions :: !IsCallFor(a, id)
    ensures Inv(specOf, states[k]) && Absent(states[k], id) && !Pending(states[k], id)
  {
    if k > 0 {
      EvictionLastsOverSteps(specOf, states, actions, id, k - 1);
      assert actions[k - 1] in actions;
      StepInv(specOf, states[k - 1], actions[k - 1]);
      EvictionLasts(specOf, states[k - 1], actions[k - 1], id);
    }
  }

  lemma PrependStep(specOf: World, s: State, a: Action, states: seq<State>, actions: seq<Action>)
    requires IsPath(specOf, states, actions) && Enabled(specOf, s, a) && states[0] == Do(specOf, s, a)
    ensures IsPath(specOf, [s] + states, [a] + actions)
  {
    var states', actions' := [s] + states, [a] + actions;
    forall i | 0 <= i < |actions'|
      ensures Enabled(specOf, states'[i], actions'[i]) && states'[i + 1] == Do(specOf, states'[i], actions'[i])
    {
      if i > 0 { assert actions'[i] == actions[i - 1] && states'[i] == states[i - 1] && states'[i + 1] == states[i - 1 + 1]; }
    }
  }

  lemma ReturnsAfter(specOf: World, s: State, a: Action, id: Ident)
    requires Enabled(specOf, s, a) && !IsCallFor(a, id) && CanReturn(specOf, Do(specOf, s, a), id)
    ensures CanReturn(specOf, s, id)
  {
    var states, actions :| Restores(specOf, Do(specOf, s, a), states, actions, id);
    PrependStep(specOf, s, a, states, actions);
    assert Restores(specOf, s, [s] + states, [a] + actions, id);
  }

  lemma PresentReturns(specOf: World, s: State, id: Ident)
    requires !Absent(s, id)
    ensures CanReturn(specOf, s, id)
  {
    assert Restores(specOf, s, [s], [], id);
  }

  /** A thread that has built its client puts the Instance back. */
  lemma BuiltReturns(specOf: World, s: State, t: nat, id: Ident)
    requires Inv(specOf, s) && t in s.threads && s.threads[t].pc.Built? && SameInstance(s.threads[t].instance.id, id)
    ensures CanReturn(specOf, s, id)
  {
    var s' := Do(specOf, s, SetStep(t));
    assert ThreadOk(specOf, s, s.threads[t]);
    assert HasEntry(s'.store, s.threads[t].instance.id);
    PresentReturns(specOf, s', id);
    ReturnsAfter(specOf, s, SetStep(t), id);
  }

  /** So does one that has missed: once the secrets are there, it builds. */
  lemma MissedReturns(specOf: World, s: State, t: nat, id: Ident)
    requires Inv(specOf, s) && t in s.threads && s.threads[t].pc.Missed? && SameInstance(s.threads[t].instance.id, id)
    ensures CanReturn(specOf, s, id)
  {
    var instance := s.threads[t].instance;
    var secrets := map ref | ref in instance.spec.secretRefs :: (instance.id.namespace, ref) := "";
    var rotate := Rotate(secrets);
    var s1 := Do(specOf, s, rotate);
    StepInv(specOf, s, rotate);
    assert s1.snapshots[|s1.snapshots| - 1] == secrets;
    var s2 := Do(specOf, s1, BuildStep(t));
    StepInv(specOf, s1, BuildStep(t));
    BuiltReturns(specOf, s2, t, id);
    ReturnsAfter(specOf, s1, BuildStep(t), id);
    ReturnsAfter(specOf, s, rotate, id);
  }

  /** So does one that has not looked yet, since it finds nothing. */
  lemma CallingReturns(specOf: World, s: State, t: nat, id: Ident)
    requires Inv(specOf, s) && Absent(s, id)
    requires t in s.threads && s.threads[t].pc.Calling? && SameInstance(s.threads[t].instance.id, id)
    ensures CanReturn(specOf, s, id)
  {
    assert ThreadOk(specOf, s, s.threads[t]);
    assert !HasEntry(s.store, s.threads[t].instance.id);
    StepInv(specOf, s, GetStep(t));
    MissedReturns(specOf, Do(specOf, s, GetStep(t)), t, id);
    ReturnsAfter(specOf, s, GetStep(t), id);
  }

  /** An Instance that is out of the cache can come back without a new call for it if and only if a call for
      it is still on its way. */
  lemma EvictionIsUndoneIff(specOf: World, states: seq<State>, actions: seq<Action>, i: nat, id: Ident)
    requires IsRun(specOf, states, actions) && i < |states| && ValidIdent(id) && Absent(states[i], id)
    ensures CanReturn(specOf, states[i], id) <==> Pending(states[i], id)
  {
    var s := states[i];
    RunInv(specOf, states, actions, i);
    if Pending(s, id) {
      var t :| t in s.threads && SameInstance(s.threads[t].instance.id, id) && !s.threads[t].pc.Returned?;
      match s.threads[t].pc
      case Calling => CallingReturns(specOf, s, t, id);
      case Missed => MissedReturns(specOf, s, t, id);
      case Built(_) => BuiltReturns(specOf, s, t, id);
    } else if CanReturn(specOf, s, id) {
      var later, steps :| Restores(specOf, s, later, steps, id);
      EvictionLastsOverSteps(specOf, later, steps, id, |steps|);
    }
  }

  /** A run in which an Instance is evicted between another call's build and its Set, and is back for good. */
  lemma EvictedComesBack() returns (specOf: World, states: seq<State>, actions: seq<Action>, instance: Instance)
    ensures IsRun(specOf, states, actions) && |actions| == 5
    ensures actions[3] == EvictStep(instance) && Absent(states[4], instance.id)
    ensures HasEntry(states[5].store, instance.id) && !Pending(states[5], instance.id)
  {
    var spec := InstanceSpec("url", {});
    specOf := _ => spec;
    instance := Instance(Ident("ns", "main", "1"), spec);
    actions := [Call(0, instance), GetStep(0), BuildStep(0), EvictStep(instance), SetStep(0)];
    var s0 := State(map[], [map[]], map[]);
    var s1 := Do(specOf, s0, actions[0]);
    var s2 := Do(specOf, s1, actions[1]);
    assert s2.threads[0].pc == Missed;
    var s3 := Do(specOf, s2, actions[2]);
    assert s3.threads[0].pc.Built?;
    var s4 := Do(specOf, s3, actions[3]);
    assert s4.store == map[];
    var s5 := Do(specOf, s4, actions[4]);
    states := [s0, s1, s2, s3, s4, s5];
  }

  // ----- What rotation promises -----

  /** A hit is what building would give now if and only if the secrets that the spec refers to are still those
      of the snapshot it was built with. */
  lemma HitIsFreshIff(specOf: World, states: seq<State>, actions: seq<Action>, i: nat)
    requires IsRun(specOf, states, actions) && i < |actions| && actions[i].GetStep?
    requires HasEntry(states[i].store, states[i].threads[actions[i].t].instance.id)
    ensures var t, snapshots := actions[i].t, states[i].snapshots;
            var th := states[i + 1].threads[t];
            var ns, spec := th.instance.id.namespace, th.instance.spec;
            && th.pc.Returned? && th.pc.reply.Some? && |snapshots| > 0
            && BuiltFor(snapshots, ns, spec, th.pc.reply.value)
            && forall n :: 0 <= n < |snapshots| && BuildClient(ns, spec, snapshots[n]) == th.pc.reply ==>
                 (BuildClient(ns, spec, Last(snapshots)) == th.pc.reply <==> SameSecrets(ns, spec, snapshots[n], Last(snapshots)))
  {
    var s, t := states[i], actions[i].t;
    RunInv(specOf, states, actions, i);
    var instance := s.threads[t].instance;
    assert ThreadOk(specOf, s, s.threads[t]);
    HitIsOwn(specOf, s, instance);
    var cl := s.store[CacheKey(instance.id)];
    var ns, spec := instance.id.namespace, instance.spec;
    forall n | 0 <= n < |s.snapshots| && BuildClient(ns, spec, s.snapshots[n]) == Some(cl)
      ensures BuildClient(ns, spec, Last(s.snapshots)) == Some(cl) <==> SameSecrets(ns, spec, s.snapshots[n], Last(s.snapshots))
    {
      FreshIffSameSecrets(ns, spec, s.snapshots[n], Last(s.snapshots));
    }
  }

  /** Whatever the rotation: a call after it gets the client built before it. */
  lemma RotationIsNotNoticed(specOf: World, instance: Instance, before: Secrets, after: Secrets)
      returns (states: seq<State>, actions: seq<Action>)
    requires Legitimate(specOf, instance) && BuildClient(instance.id.namespace, instance.spec, before).Some?
    ensures IsRun(specOf, states, actions) && |actions| == 7
    ensures actions[4] == Rotate(after) && actions[5] == Call(1, instance)
    ensures var s := states[7];
            && s.snapshots == [before, after]
            && 1 in s.threads
            && s.threads[1] == Thread(instance, Returned(BuildClient(instance.id.namespace, instance.spec, before)))
  {
    var cl := BuildClient(instance.id.namespace, instance.spec, before).value;
    actions := [Call(0, instance), GetStep(0), BuildStep(0), SetStep(0), Rotate(after), Call(1, instance), GetStep(1)];
    var s0 := State(map[], [before], map[]);
    var s1 := Do(specOf, s0, actions[0]);
    var s2 := Do(specOf, s1, actions[1]);
    assert s2.threads[0].pc == Missed;
    var s3 := Do(specOf, s2, actions[2]);
    assert s3.threads[0].pc == Built(cl);
    var s4 := Do(specOf, s3, actions[3]);
    assert HasEntry(s4.store, instance.id) && s4.store[CacheKey(instance.id)] == cl;
    var s5 := Do(specOf, s4, actions[4]);
    var s6 := Do(specOf, s5, actions[5]);
    var s7 := Do(specOf, s6, actions[6]);
    states := [s0, s1, s2, s3, s4, s5, s6, s7];
  }

  /** With another password in the secret, that is not the client that building gives now. */
  lemma OldPasswordIsUsed() returns (specOf: World, states: seq<State>, actions: seq<Action>)
    ensures IsRun(specOf, states, actions) && |actions| == 7 && actions[4].Rotate? && actions[5].Call?
    ensures var s := states[7];
            && 1 in s.threads && s.threads[1].pc.Returned? && s.threads[1].pc.reply.Some? && |s.snapshots| > 0
            && var now := BuildClient(s.threads[1].instance.id.namespace, s.threads[1].instance.spec, Last(s.snapshots));
            now.Some? && now != s.threads[1].pc.reply
  {
    var spec := InstanceSpec("url", {"password"});
    specOf := _ => spec;
    var instance := Instance(Ident("ns", "main", "1"), spec);
    var ref := ("ns", "password");
    var before: Secrets, after: Secrets := map[ref := "a"], map[ref := "b"];
    assert before[ref] != after[ref];
    FreshIffSameSecrets("ns", spec, before, after);
    states, actions := RotationIsNotNoticed(specOf, instance, before, after);
  }
}
