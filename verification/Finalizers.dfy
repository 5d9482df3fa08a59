/** The finalizer protocol that the Team and Pipeline reconcilers share: store the finalizer before anything
    is applied to Concourse, and on deletion attempt to delete there before the finalizer is removed
    (internal/controller/team_controller.go, internal/controller/pipeline_controller.go).
    Reconciles of one object run one after the other, and reads never go back. */
module Finalizers {
  import opened ApiServer

  /** The rest of the object, as far as it matters: finalizers of other controllers also keep a deleted object
      in place. */
  datatype Rest = Rest(others: bool)

  type Version = Object<Rest, ()>

  datatype PC = Idle | AddingFinalizer | Resolving | ApplyingNow | Finalizing | RemovingFinalizer

  datatype State = State(
    history: seq<Version>,
    gone: bool,
    at: nat,            // version of the copy held by the running or the last reconcile
    pc: PC,
    applied: bool,      // an apply call was sent to Concourse, whatever its reply
    finalized: bool)    // since the last such call, a pass sent the delete call or failed to resolve

  datatype Action =
    | Read(version: nat)
    | ReadGone
    | AddFinalizer(fate: Fate)
    | Resolve(ok: bool)
    | Apply                       // CreateOrUpdate, CreateOrUpdatePipelineConfig; success or error
    | Return                      // the rest of the reconcile: status writes only
    | TryDelete                   // deleteTeam, deletePipeline: resolve error, delete error or success
    | RemoveFinalizer(fate: Fate)
    | Crash
    | Touch(others: bool)         // any edit by others
    | Delete

  predicate Init(s: State) {
    && |s.history| == 1 && !s.history[0].finalizer && !s.history[0].deleting
    && !s.gone && s.at == 0 && s.pc.Idle? && !s.applied && !s.finalized
  }

  predicate FateAllowed(s: State, fate: Fate) {
    fate.Rejected? || (!s.gone && IsCurrent(s.history, s.at))
  }

  /** `forward`: reads never return a version older than one already read. */
  predicate Enabled(s: State, a: Action, forward: bool) {
    && s.at < |s.history|
    && match a
       case Read(version) => s.pc.Idle? && version < |s.history| && (forward ==> s.at <= version)
       case ReadGone => s.pc.Idle? && s.gone
       case AddFinalizer(fate) => s.pc.AddingFinalizer? && FateAllowed(s, fate)
       case Resolve(_) => s.pc.Resolving?
       case Apply => s.pc.ApplyingNow?
       case Return => s.pc.ApplyingNow?
       case TryDelete => s.pc.Finalizing?
       case RemoveFinalizer(fate) => s.pc.RemovingFinalizer? && FateAllowed(s, fate)
       case Crash => !s.pc.Idle?
       case Touch(_) => !s.gone
       case Delete => !s.gone
  }

  /** The API server stores a version, or drops a deleted object that no finalizer holds. */
  function Store(s: State, v: Version): State {
    if v.deleting && !v.finalizer && !v.spec.others then s.(gone := true) else s.(history := s.history + [v])
  }

  function DoRead(s: State, version: nat): State
    requires version < |s.history|
  {
    var v := s.history[version];
    s.(at := version,
       pc := if v.deleting then (if v.finalizer then Finalizing else Idle)
             else if v.finalizer then Resolving
             else AddingFinalizer)
  }

  function DoAddFinalizer(s: State, fate: Fate): State
    requires |s.history| > 0
  {
    var s1 := Store(s, Last(s.history).(finalizer := true));
    match fate
    case Rejected => s.(pc := Idle)
    case Unacked => s1.(pc := Idle)
    case Acked => s1.(pc := Resolving, at := |s1.history| - 1)
  }

  function DoRemoveFinalizer(s: State, fate: Fate): State
    requires |s.history| > 0
  {
    if fate.Rejected? then s.(pc := Idle)
    else Store(s, Last(s.history).(finalizer := false)).(pc := Idle)
  }

  function Do(s: State, a: Action, forward: bool): State
    requires Enabled(s, a, forward)
  {
    match a
    case Read(version) => DoRead(s, version)
    case ReadGone => s
    case AddFinalizer(fate) => DoAddFinalizer(s, fate)
    case Resolve(ok) => s.(pc := if ok then ApplyingNow else Idle)
    case Apply => s.(applied := true, finalized := false)
    case Return => s.(pc := Idle)
    case TryDelete => s.(pc := RemovingFinalizer, finalized := true)
    case RemoveFinalizer(fate) => DoRemoveFinalizer(s, fate)
    case Crash => s.(pc := Idle)
    case Touch(others) => Store(s, Last(s.history).(spec := Rest(others)))
    case Delete => Store(s, Last(s.history).(deleting := true))
  }

  /** Any number of steps from any state. */
  ghost predicate IsPath(states: seq<State>, actions: seq<Action>, forward: bool) {
    && |states| == |actions| + 1
    && forall i :: 0 <= i < |actions| ==>
         Enabled(states[i], actions[i], forward) && states[i + 1] == Do(states[i], actions[i], forward)
  }

  ghost predicate IsRun(states: seq<State>, actions: seq<Action>, forward: bool) {
    IsPath(states, actions, forward) && Init(states[0])
  }

  ghost predicate Inv(s: State) {
    && s.at < |s.history|
    && (forall u, v :: 0 <= u <= v < |s.history| && s.history[u].deleting ==> s.history[v].deleting)
    // what the reconcile has read
    && (s.pc.Finalizing? || s.pc.RemovingFinalizer? ==> s.history[s.at].deleting && s.history[s.at].finalizer)
    && (s.pc.Resolving? || s.pc.ApplyingNow? ==> s.history[s.at].finalizer && !s.history[s.at].deleting)
    && (s.pc.AddingFinalizer? ==> !s.history[s.at].deleting)
    && (s.pc.RemovingFinalizer? ==> s.finalized)
    // once the finalizer is removed, or the object gone with it, the object has been read as deleted
    && (forall v :: 0 <= v < |s.history| && s.history[v].finalizer && (!Last(s.history).finalizer || s.gone) ==>
          s.history[s.at].deleting && s.finalized)
    && (s.applied && !s.finalized ==> Last(s.history).finalizer)
  }

  lemma StoreKeepsOrder(s: State, v: Version)
    requires Inv(s) && (Last(s.history).deleting ==> v.deleting)
    ensures var h := Store(s, v).history;
            forall i, j :: 0 <= i <= j < |h| && h[i].deleting ==> h[j].deleting
  {
    var h := Store(s, v).history;
    forall i, j | 0 <= i <= j < |h| && h[i].deleting ensures h[j].deleting {
      if i < |s.history| { assert Last(s.history).deleting; }
    }
  }

  lemma AddKeepsInv(s: State, fate: Fate)
    requires Inv(s) && Enabled(s, AddFinalizer(fate), true)
    ensures Inv(DoAddFinalizer(s, fate))
  {
    StoreKeepsOrder(s, Last(s.history).(finalizer := true));
  }

  lemma RemoveKeepsInv(s: State, fate: Fate)
    requires Inv(s) && Enabled(s, RemoveFinalizer(fate), true)
    ensures Inv(DoRemoveFinalizer(s, fate))
  {
    StoreKeepsOrder(s, Last(s.history).(finalizer := false));
  }

  lemma UserKeepsInv(s: State, v: Version)
    requires Inv(s) && !s.gone
    requires v.finalizer == Last(s.history).finalizer && (Last(s.history).deleting ==> v.deleting)
    ensures Inv(Store(s, v))
  {
    StoreKeepsOrder(s, v);
  }

  lemma StepInv(s: State, a: Action)
    requires Inv(s) && Enabled(s, a, true)
    ensures Inv(Do(s, a, true))
  {
    match a
    case AddFinalizer(fate) => AddKeepsInv(s, fate);
    case RemoveFinalizer(fate) => RemoveKeepsInv(s, fate);
    case Touch(others) => UserKeepsInv(s, Last(s.history).(spec := Rest(others)));
    case Delete => UserKeepsInv(s, Last(s.history).(deleting := true));
    case _ =>
  }

  lemma {:induction false} RunInv(states: seq<State>, actions: seq<Action>, i: nat)
    requires IsRun(states, actions, true) && i < |states|
    ensures Inv(states[i])
  {
    if i > 0 {
      RunInv(states, actions, i - 1);
      StepInv(states[i - 1], actions[i - 1]);
    }
  }

  /** Nothing is applied to Concourse unless the finalizer is stored on the living object. */
  lemma AppliedOnlyUnderFinalizer(states: seq<State>, actions: seq<Action>, i: nat)
    requires IsRun(states, actions, true) && i < |actions| && actions[i].Apply?
    ensures |states[i].history| > 0 && Last(states[i].history).finalizer && !states[i].gone
  {
    RunInv(states, actions, i);
  }

  /** No object that was applied leaves the API server without a finalization pass after its last apply. */
  lemma NoAppliedObjectLeavesUnfinalized(states: seq<State>, actions: seq<Action>, i: nat)
    requires IsRun(states, actions, true) && i < |states|
    requires states[i].gone && states[i].applied
    ensures states[i].finalized
  {
    RunInv(states, actions, i);
  }

  /** Every apply, in any order of reads, belongs to a reconcile whose resolver has succeeded: since then it has
      not returned, and nothing but applies and foreign edits has happened. */
  lemma {:induction false} ApplyFollowsResolve(states: seq<State>, actions: seq<Action>, i: nat, forward: bool) returns (k: nat)
    requires IsRun(states, actions, forward) && i < |states| && states[i].pc.ApplyingNow?
    ensures k < i && actions[k] == Resolve(true)
    ensures forall j :: k < j < i ==> actions[j].Apply? || actions[j].Touch? || actions[j].Delete?
  {
    if actions[i - 1] == Resolve(true) {
      k := i - 1;
    } else {
      k := ApplyFollowsResolve(states, actions, i - 1, forward);
    }
  }

  /** What the finalizer writes leave. A write that is not rejected is stored even if the reconcile sees an error; the
      removal drops the object unless another finalizer holds it. */
  lemma FinalizerWritesLand(states: seq<State>, actions: seq<Action>, i: nat, fate: Fate)
    requires IsRun(states, actions, true) && i < |actions| && actions[i] in {AddFinalizer(fate), RemoveFinalizer(fate)}
    ensures var s, s' := states[i], states[i + 1];
            && |s.history| > 0
            && (fate.Rejected? ==> s'.history == s.history && s'.gone == s.gone && s'.pc.Idle?)
            && (!fate.Rejected? && actions[i].AddFinalizer? ==>
                  && !s'.gone && s'.history == s.history + [Last(s.history).(finalizer := true)]
                  && (fate.Acked? <==> s'.pc.Resolving?) && (fate.Unacked? <==> s'.pc.Idle?))
            && (!fate.Rejected? && actions[i].RemoveFinalizer? ==>
                  && (s'.gone <==> !Last(s.history).spec.others) && s'.pc.Idle?
                  && (!s'.gone ==> s'.history == s.history + [Last(s.history).(finalizer := false)]))
  {
    RunInv(states, actions, i);
  }

  // ----- The order of reads matters -----

  /** The version carries the finalizer and no deletion mark. */
  predicate Appliable(v: Version) {
    v.finalizer && !v.deleting
  }

  /** One reconcile that reads `version` in state `s` and gets to apply the object. */
  ghost predicate AppliesAfter(s: State, version: nat, states: seq<State>, actions: seq<Action>) {
    && IsPath(states, actions, false) && states[0] == s && |actions| > 1
    && actions[0] == Read(version) && (forall k :: 0 < k < |actions| ==> !actions[k].Read?)
    && Last(actions) == Apply
  }

  ghost predicate CanApply(s: State, version: nat) {
    exists states, actions :: AppliesAfter(s, version, states, actions)
  }

  /** An appliable version of a gone object is applied again, and that apply has no finalization pass. */
  lemma BackwardReadApplies(s: State, version: nat) returns (states: seq<State>, actions: seq<Action>)
    requires s.gone && s.pc.Idle? && s.at < |s.history| && version < |s.history| && Appliable(s.history[version])
    ensures AppliesAfter(s, version, states, actions)
    ensures var s' := Last(states); s'.gone && s'.applied && !s'.finalized
  {
    actions := [Read(version), Resolve(true), Apply];
    var s1 := Do(s, actions[0], false);
    var s2 := Do(s1, actions[1], false);
    states := [s, s1, s2, Do(s2, actions[2], false)];
  }

  /** Nothing is on the way to an apply. */
  predicate Harmless(s: State) {
    s.gone && !s.pc.Resolving? && !s.pc.ApplyingNow?
  }

  lemma {:induction false} HarmlessLasts(states: seq<State>, actions: seq<Action>, k: nat)
    requires IsPath(states, actions, false) && 0 < k < |states| && Harmless(states[1])
    requires forall j :: 0 < j < |actions| ==> !actions[j].Read?
    ensures Harmless(states[k])
  {
    if k > 1 { HarmlessLasts(states, actions, k - 1); }
  }

  /** Reading a version of a gone object leads to an apply if and only if that version carries the finalizer
      and no deletion mark. */
  lemma BackwardReadLeaksIff(s: State, version: nat)
    requires s.gone && s.pc.Idle? && s.at < |s.history| && version < |s.history|
    ensures CanApply(s, version) <==> Appliable(s.history[version])
  {
    if Appliable(s.history[version]) {
      var states, actions := BackwardReadApplies(s, version);
    } else if CanApply(s, version) {
      var states, actions :| AppliesAfter(s, version, states, actions);
      HarmlessLasts(states, actions, |actions| - 1);
    }
  }

  lemma Extend(states: seq<State>, actions: seq<Action>, a: Action) returns (states': seq<State>, actions': seq<Action>)
    requires IsRun(states, actions, false) && Enabled(Last(states), a, false)
    ensures IsRun(states', actions', false) && actions' == actions + [a] && Last(states') == Do(Last(states), a, false)
  {
    states', actions' := states + [Do(Last(states), a, false)], actions + [a];
  }

  /** Every run goes on with an undisturbed deletion pass that releases the object: it is gone, unless the finalizer
      of another controller holds it. */
  lemma DeletionReleases(states: seq<State>, actions: seq<Action>, fate: Fate) returns (states': seq<State>, actions': seq<Action>)
    requires IsRun(states, actions, false) && !fate.Rejected?
    requires var s := Last(states);
             |s.history| > 0 && s.pc.Idle? && !s.gone && s.at < |s.history| && Last(s.history).deleting && Last(s.history).finalizer
    ensures IsRun(states', actions', false)
    ensures actions' == actions + [Read(|Last(states).history| - 1)] + [TryDelete] + [RemoveFinalizer(fate)]
    ensures var s, s' := Last(states), Last(states');
            && (s'.gone <==> !Last(s.history).spec.others) && s'.finalized
            && (!s'.gone ==> s'.history == s.history + [Last(s.history).(finalizer := false)])
  {
    ghost var last := |Last(states).history| - 1;
    states', actions' := Extend(states, actions, Read(last));
    states', actions' := Extend(states', actions', TryDelete);
    states', actions' := Extend(states', actions', RemoveFinalizer(fate));
  }

  /** A life of an object: finalizer, apply, deletion, finalization. Its first finalized version stays readable. */
  lemma GoneIsReached() returns (states: seq<State>, actions: seq<Action>)
    ensures IsRun(states, actions, false)
    ensures var s := Last(states);
            && s.gone && s.pc.Idle? && s.applied && s.finalized && s.at < |s.history|
            && |s.history| == 3 && Appliable(s.history[1])
  {
    var v: Version := Object(1, false, false, Rest(false), ());
    states, actions := [State([v], false, 0, Idle, false, false)], [];
    states, actions := Extend(states, actions, Read(0));
    states, actions := Extend(states, actions, AddFinalizer(Acked));
    states, actions := Extend(states, actions, Resolve(true));
    states, actions := Extend(states, actions, Apply);
    states, actions := Extend(states, actions, Return);
    states, actions := Extend(states, actions, Delete);
    states, actions := Extend(states, actions, Read(2));
    states, actions := Extend(states, actions, TryDelete);
    states, actions := Extend(states, actions, RemoveFinalizer(Acked));
  }

  /** A run with reads that go back, which leaves a gone object applied and not finalized. */
  lemma BackwardReadLeaks() returns (states: seq<State>, actions: seq<Action>)
    ensures IsRun(states, actions, false)
    ensures var s := Last(states); s.gone && s.applied && !s.finalized
  {
    states, actions := GoneIsReached();
    states, actions := Extend(states, actions, Read(1));
    states, actions := Extend(states, actions, Resolve(true));
    states, actions := Extend(states, actions, Apply);
  }

  /** Reading forward, no appliable version of a gone object can be read: the last version read is already marked
      deleted. */
  lemma ForwardReadIsSafe(states: seq<State>, actions: seq<Action>, i: nat, version: nat)
    requires IsRun(states, actions, true) && i < |states|
    requires states[i].gone && states[i].at <= version < |states[i].history|
    requires states[i].history[version].finalizer
    ensures states[i].history[version].deleting
  {
    RunInv(states, actions, i);
  }
}
