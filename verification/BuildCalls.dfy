/** A Build reconcile calls Concourse only along the ready chain of its Job, which it has walked itself
    (internal/controller/build_controller.go, internal/controller/resolver.go). */
module BuildCalls {
  import opened ApiServer
  import opened BuildStatuses
  import opened BuildProtocol
  import opened BuildInvariant
  import opened Resolver

  /** Reconcile `r` has taken action `a` before state `i`, and has not ended and begun anew since. */
  ghost predicate Since(actions: seq<Action>, i: nat, r: nat, a: Action)
    requires i <= |actions|
  {
    exists j :: 0 <= j < i && actions[j] == a && NotBegun(actions, j, i, r)
  }

  ghost predicate NotBegun(actions: seq<Action>, j: nat, i: nat, r: nat)
    requires i <= |actions|
  {
    forall k :: j < k < i ==> actions[k] != Begin(r)
  }

  /** The reconciles that call Concourse, now or next. */
  predicate Calling(pc: PC) {
    pc.Creating? || pc.Aborting? || pc.Refreshing? || pc.Writing? || pc.Spawning?
  }

  /** At action `k` reconcile `r` gets a good answer from the resolver about the Job it has found. */
  ghost predicate Resolution(states: seq<State>, actions: seq<Action>, k: nat, r: nat)
    requires k < |actions| < |states|
  {
    && actions[k].Resolve? && actions[k].r == r && actions[k].ok
    && r in states[k].recs && states[k].recs[r].pc.Resolving?
    && Since(actions, k, r, FindJob(r, JobFound(states[k].recs[r].pc.job)))
  }

  ghost predicate Resolved(states: seq<State>, actions: seq<Action>, i: nat, r: nat)
    requires i <= |actions| < |states|
  {
    exists k :: 0 <= k < i && Resolution(states, actions, k, r) && NotBegun(actions, k, i, r)
  }

  // ----- One step -----

  /** The actions that end a reconcile or store its status. */
  predicate Ends(a: Action) {
    a.ReadGone? || a.Report? || a.Write? || a.Spawn? || a.Die?
  }

  lemma OutsideStays(s: State, a: Action, s': State, r: nat)
    requires IsStep(s, a, s') && IsOutside(a) && r in s'.recs
    ensures (a == Begin(r) && s'.recs[r].pc.Reading?) || (a != Begin(r) && r in s.recs && s'.recs[r] == s.recs[r])
  {}

  lemma EndMove(s: State, a: Action, s': State, r: nat)
    requires IsStep(s, a, s') && Ends(a) && r in s'.recs
    ensures r in s.recs
    ensures s'.recs[r] == s.recs[r] || (a.r == r && s.recs[r].pc.Writing? && s'.recs[r].pc.Spawning?)
  {}

  lemma ReadMove(s: State, a: Action, s': State, r: nat)
    requires IsStep(s, a, s') && a.Read? && r in s'.recs
    ensures r in s.recs && (s'.recs[r] == s.recs[r] || s'.recs[r].pc.Reporting? || s'.recs[r].pc.FindingJob?)
  {}

  lemma FindMove(s: State, a: Action, s': State, r: nat)
    requires IsStep(s, a, s') && a.FindJob? && r in s'.recs
    ensures r in s.recs
    ensures s'.recs[r] == s.recs[r] ||
            (a.lookup.JobFound? && a.r == r && s'.recs[r] == s.recs[r].(pc := Resolving(a.lookup.job)) && s.recs[r].pc.FindingJob?)
  {}

  lemma ResolveMove(s: State, a: Action, s': State, r: nat)
    requires IsStep(s, a, s') && a.Resolve? && r in s'.recs
    ensures r in s.recs && (s'.recs[r] == s.recs[r] || (a.r == r && s.recs[r].pc.Resolving? && s'.recs[r].at == s.recs[r].at))
    ensures a.r == r ==> s.recs[r].pc.Resolving? && (if a.ok then Calling(s'.recs[r].pc) else s'.recs[r].pc.Reporting?)
  {}

  lemma CreateMove(s: State, a: Action, s': State, r: nat)
    requires IsStep(s, a, s') && a.Create? && r in s'.recs
    ensures r in s.recs && s'.recs[r].at == s.recs[r].at
    ensures s'.recs[r] == s.recs[r] || (a.r == r && Calling(s.recs[r].pc) && !s'.recs[r].pc.Resolving? && !s'.recs[r].pc.Reading?)
  {}

  lemma CallMove(s: State, a: Action, s': State, r: nat)
    requires IsStep(s, a, s') && (a.Abort? || a.Refresh?) && r in s'.recs
    ensures r in s.recs && s'.recs[r].at == s.recs[r].at
    ensures s'.recs[r] == s.recs[r] || (a.r == r && Calling(s.recs[r].pc) && !s'.recs[r].pc.Resolving? && !s'.recs[r].pc.Reading?)
  {}

  /** How reconcile `r` gets to call Concourse: through a good answer of the resolver, which it asks only about
      a Job that it found. */
  ghost predicate Entered(recs: map<nat, Recon>, a: Action, recs': map<nat, Recon>, r: nat)
    requires r in recs'
  {
    var pc := recs'[r].pc;
    && (pc.Resolving? ==> a == FindJob(r, JobFound(pc.job)) || (a != Begin(r) && r in recs && recs[r].pc == pc))
    && (Calling(pc) ==>
          && a != Begin(r) && r in recs
          && (Calling(recs[r].pc) || (a.Resolve? && a.r == r && a.ok && recs[r].pc.Resolving?)))
  }

  lemma StepEnters(s: State, a: Action, s': State, r: nat)
    requires IsStep(s, a, s') && r in s'.recs
    ensures Entered(s.recs, a, s'.recs, r)
  {
    if IsOutside(a) {
      OutsideStays(s, a, s', r);
    } else if Ends(a) {
      EndMove(s, a, s', r);
    } else if a.Read? {
      ReadMove(s, a, s', r);
    } else if a.FindJob? {
      FindMove(s, a, s', r);
    } else if a.Resolve? {
      ResolveMove(s, a, s', r);
    } else if a.Create? {
      CreateMove(s, a, s', r);
    } else {
      CallMove(s, a, s', r);
    }
  }

  lemma {:induction false} NamespaceFixed(states: seq<State>, actions: seq<Action>, i: nat)
    requires IsRun(states, actions) && i < |states|
    ensures states[i].namespace == states[0].namespace
  {
    if i > 0 {
      NamespaceFixed(states, actions, i - 1);
      StepKeepsNamespace(states[i - 1], actions[i - 1], states[i]);
    }
  }

  lemma StepKeepsNamespace(s: State, a: Action, s': State)
    requires IsStep(s, a, s')
    ensures s'.namespace == s.namespace
  {
    if Ends(a) { EndKeepsNamespace(s, a, s'); }
  }

  lemma EndKeepsNamespace(s: State, a: Action, s': State)
    requires IsStep(s, a, s') && Ends(a)
    ensures s'.namespace == s.namespace
  {}

  // ----- Runs -----

  lemma SinceLasts(actions: seq<Action>, i: nat, r: nat, a: Action)
    requires i < |actions| && Since(actions, i, r, a) && actions[i] != Begin(r)
    ensures Since(actions, i + 1, r, a)
  {
    var j :| 0 <= j < i && actions[j] == a && NotBegun(actions, j, i, r);
    assert NotBegun(actions, j, i + 1, r);
  }

  lemma ResolvedLasts(states: seq<State>, actions: seq<Action>, i: nat, r: nat)
    requires i < |actions| < |states| && Resolved(states, actions, i, r) && actions[i] != Begin(r)
    ensures Resolved(states, actions, i + 1, r)
  {
    var k :| 0 <= k < i && Resolution(states, actions, k, r) && NotBegun(actions, k, i, r);
    assert NotBegun(actions, k, i + 1, r);
  }

  /** What reconcile `r` has done by state `i`, as far as its place in the code tells. */
  ghost predicate HasChain(states: seq<State>, actions: seq<Action>, i: nat, r: nat)
    requires i <= |actions| < |states|
  {
    r in states[i].recs ==>
      && (states[i].recs[r].pc.Resolving? ==> Since(actions, i, r, FindJob(r, JobFound(states[i].recs[r].pc.job))))
      && (Calling(states[i].recs[r].pc) ==> Resolved(states, actions, i, r))
  }

  lemma ChainLasts(states: seq<State>, actions: seq<Action>, i: nat, r: nat)
    requires i < |actions| < |states| && HasChain(states, actions, i, r)
    requires r in states[i + 1].recs && Entered(states[i].recs, actions[i], states[i + 1].recs, r)
    ensures HasChain(states, actions, i + 1, r)
  {
    var pc, a := states[i + 1].recs[r].pc, actions[i];
    if pc.Resolving? {
      if a == FindJob(r, JobFound(pc.job)) {
        assert NotBegun(actions, i, i + 1, r);
      } else {
        SinceLasts(actions, i, r, FindJob(r, JobFound(pc.job)));
      }
    } else if Calling(pc) {
      if Calling(states[i].recs[r].pc) {
        ResolvedLasts(states, actions, i, r);
      } else {
        assert Resolution(states, actions, i, r) && NotBegun(actions, i, i + 1, r);
      }
    }
  }

  lemma {:induction false} CallingHasChain(states: seq<State>, actions: seq<Action>, i: nat, r: nat)
    requires IsRun(states, actions) && i < |states|
    ensures HasChain(states, actions, i, r)
  {
    if i > 0 {
      CallingHasChain(states, actions, i - 1, r);
      if r in states[i].recs {
        StepEnters(states[i - 1], actions[i - 1], states[i], r);
        ChainLasts(states, actions, i - 1, r);
      }
    }
  }

  /** No create, abort, refresh or watcher without a ready chain: the same reconcile found its Job, and then
      walked a cluster in which the Job's Pipeline, Team and Instance exist in the Build's namespace and are
      ready, and a client could be had. */
  lemma NoCallWithoutChain(states: seq<State>, actions: seq<Action>, i: nat) returns (k: nat)
    requires IsRun(states, actions) && i < |actions|
    requires var a := actions[i]; a.Create? || a.Abort? || a.Refresh? || a.Spawn?
    ensures var r := actions[i].r;
            && k < i && Resolution(states, actions, k, r) && NotBegun(actions, k, i, r)
            && actions[k].walk.JobResolves(states[i].namespace, states[k].recs[r].pc.job.pipelineRef)
            && LinksReady(actions[k].walk.cluster, states[i].namespace, states[k].recs[r].pc.job.pipelineRef)
  {
    var r := actions[i].r;
    assert IsStep(states[i], actions[i], states[i + 1]);
    CallingHasChain(states, actions, i, r);
    k :| 0 <= k < i && Resolution(states, actions, k, r) && NotBegun(actions, k, i, r);
    assert IsStep(states[k], actions[k], states[k + 1]);
    NamespaceFixed(states, actions, i);
    NamespaceFixed(states, actions, k);
    ResolvedLinksReady(actions[k].walk, states[i].namespace, states[k].recs[r].pc.job.pipelineRef);
  }
}
