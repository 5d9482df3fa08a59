/** The resolver chain Job → Pipeline → Team → Instance that ends in the client cache
    (internal/controller/resolver.go), against its declarative meaning. */
module Resolver {
  import opened ApiServer
  import opened ClientCache

  /** Namespace and name. */
  type ObjectKey = (string, string)

  datatype PipelineRes = PipelineRes(name: string, teamRef: string, pipelineName: string, conds: Conditions)

  datatype TeamRes = TeamRes(name: string, instanceRef: string, teamName: string, conds: Conditions)

  datatype InstanceRes = InstanceRes(instance: Instance, conds: Conditions)

  datatype Cluster = Cluster(
    pipelines: map<ObjectKey, PipelineRes>,
    teams: map<ObjectKey, TeamRes>,
    instances: map<ObjectKey, InstanceRes>,
    past: seq<Secrets>,   // the secrets of earlier times
    secrets: Secrets)

  datatype ResolveError =
    | PipelineMissing | PipelineNotReady
    | TeamMissing | TeamNotReady
    | InstanceMissing | InstanceNotReady
    | ClientFailed

  datatype Result<+T> = Ok(value: T) | Err(error: ResolveError)

  predicate IsReady(conds: Conditions) {
    IsStatusConditionTrue(conds, READY)
  }

  /** Every Instance is stored under its own namespace and name, and a client cached for it was built from its
      spec with its namespace's secrets of some time. */
  ghost predicate Honest(cluster: Cluster, store: Store) {
    forall k <- cluster.instances ::
      && ValidIdent(cluster.instances[k].instance.id)
      && (cluster.instances[k].instance.id.namespace, cluster.instances[k].instance.id.name) == k
      && (HasEntry(store, cluster.instances[k].instance.id) ==>
            IsClientOf(cluster, cluster.instances[k].instance, store[CacheKey(cluster.instances[k].instance.id)]))
  }

  ghost predicate IsClientOf(cluster: Cluster, i: Instance, cl: Client) {
    BuiltFor(cluster.past + [cluster.secrets], i.id.namespace, i.spec, cl)
  }

  /** The client of an Instance: the cached one, or a new one. */
  function ClientOf(cluster: Cluster, store: Store, i: Instance): Option<Client> {
    if CacheKey(i.id) in store then Some(store[CacheKey(i.id)])
    else BuildClient(i.id.namespace, i.spec, cluster.secrets)
  }

  // ----- The declarative chains -----

  /** Status of the condition of type "Ready"; `None` if there is no such condition. */
  function ReadyStatus(conds: Conditions): Option<CondStatus> {
    if "Ready" in conds then Some(conds["Ready"].status) else None
  }

  ghost predicate TeamChain(c: Cluster, ns: string, instanceRef: string, i: InstanceRes) {
    && (ns, instanceRef) in c.instances && c.instances[(ns, instanceRef)] == i
    && ReadyStatus(i.conds) == Some(CondTrue)
  }

  ghost predicate PipelineChain(c: Cluster, ns: string, teamRef: string, t: TeamRes, i: InstanceRes) {
    && (ns, teamRef) in c.teams && c.teams[(ns, teamRef)] == t
    && ReadyStatus(t.conds) == Some(CondTrue)
    && TeamChain(c, ns, t.instanceRef, i)
  }

  ghost predicate JobChain(c: Cluster, ns: string, pipelineRef: string, p: PipelineRes, t: TeamRes, i: InstanceRes) {
    && (ns, pipelineRef) in c.pipelines && c.pipelines[(ns, pipelineRef)] == p
    && ReadyStatus(p.conds) == Some(CondTrue)
    && PipelineChain(c, ns, p.teamRef, t, i)
  }

  // ----- The broken links -----

  /** The first link from the Team on that is broken: the Instance is missing, its Ready condition is absent, False
      or Unknown, or no client can be had. */
  ghost predicate TeamBreaks(w: Walk, ns: string, instanceRef: string, e: ResolveError) {
    var key := (ns, instanceRef);
    match e
    case InstanceMissing => key !in w.cluster.instances
    case InstanceNotReady => key in w.cluster.instances && ReadyStatus(w.cluster.instances[key].conds) != Some(CondTrue)
    case ClientFailed =>
      && key in w.cluster.instances && ReadyStatus(w.cluster.instances[key].conds) == Some(CondTrue)
      && ClientOf(w.cluster, w.store, w.cluster.instances[key].instance).None?
    case _ => false
  }

  ghost predicate PipelineBreaks(w: Walk, ns: string, teamRef: string, e: ResolveError) {
    var key := (ns, teamRef);
    match e
    case PipelineMissing => false
    case PipelineNotReady => false
    case TeamMissing => key !in w.cluster.teams
    case TeamNotReady => key in w.cluster.teams && ReadyStatus(w.cluster.teams[key].conds) != Some(CondTrue)
    case _ =>
      && key in w.cluster.teams && ReadyStatus(w.cluster.teams[key].conds) == Some(CondTrue)
      && TeamBreaks(w, ns, w.cluster.teams[key].instanceRef, e)
  }

  ghost predicate JobBreaks(w: Walk, ns: string, pipelineRef: string, e: ResolveError) {
    var key := (ns, pipelineRef);
    match e
    case PipelineMissing => key !in w.cluster.pipelines
    case PipelineNotReady => key in w.cluster.pipelines && ReadyStatus(w.cluster.pipelines[key].conds) != Some(CondTrue)
    case _ =>
      && key in w.cluster.pipelines && ReadyStatus(w.cluster.pipelines[key].conds) == Some(CondTrue)
      && PipelineBreaks(w, ns, w.cluster.pipelines[key].teamRef, e)
  }

  /** Pipeline, Team and Instance of a Job or Resource exist in the namespace, each with a Ready condition that is
      True. */
  ghost predicate LinksReady(c: Cluster, ns: string, pipelineRef: string) {
    && (ns, pipelineRef) in c.pipelines && ReadyStatus(c.pipelines[(ns, pipelineRef)].conds) == Some(CondTrue)
    && TeamLinksReady(c, ns, c.pipelines[(ns, pipelineRef)].teamRef)
  }

  ghost predicate TeamLinksReady(c: Cluster, ns: string, teamRef: string) {
    && (ns, teamRef) in c.teams && ReadyStatus(c.teams[(ns, teamRef)].conds) == Some(CondTrue)
    && var ref := (ns, c.teams[(ns, teamRef)].instanceRef);
    ref in c.instances && ReadyStatus(c.instances[ref].conds) == Some(CondTrue)
  }

  /** The cluster and the cache as one walk along the chain finds them. */
  datatype Walk = Walk(cluster: Cluster, store: Store)
  {
    /** The client at the end of the walk for a Team, for a Pipeline, and for a Job or Resource. */
    function TeamClient(ns: string, instanceRef: string): Option<Client> {
      if (ns, instanceRef) in cluster.instances && IsReady(cluster.instances[(ns, instanceRef)].conds)
      then ClientOf(cluster, store, cluster.instances[(ns, instanceRef)].instance)
      else None
    }

    function PipelineClient(ns: string, teamRef: string): Option<Client> {
      if (ns, teamRef) in cluster.teams && IsReady(cluster.teams[(ns, teamRef)].conds)
      then TeamClient(ns, cluster.teams[(ns, teamRef)].instanceRef)
      else None
    }

    function JobClient(ns: string, pipelineRef: string): Option<Client> {
      if (ns, pipelineRef) in cluster.pipelines && IsReady(cluster.pipelines[(ns, pipelineRef)].conds)
      then PipelineClient(ns, cluster.pipelines[(ns, pipelineRef)].teamRef)
      else None
    }

    /** The URL of the server that the calls after a good walk go to. */
    function JobSite(ns: string, pipelineRef: string): string {
      var cl := JobClient(ns, pipelineRef);
      if cl.Some? then cl.value.spec.url else ""
    }

    /** Whether the resolver succeeds for a Team, for a Pipeline, and for a Job or Resource. */
    ghost predicate TeamResolves(ns: string, instanceRef: string) {
      exists i :: TeamChain(cluster, ns, instanceRef, i) && ClientOf(cluster, store, i.instance).Some?
    }

    ghost predicate PipelineResolves(ns: string, teamRef: string) {
      exists t, i :: PipelineChain(cluster, ns, teamRef, t, i) && ClientOf(cluster, store, i.instance).Some?
    }

    ghost predicate JobResolves(ns: string, pipelineRef: string) {
      exists p, t, i :: JobChain(cluster, ns, pipelineRef, p, t, i) && ClientOf(cluster, store, i.instance).Some?
    }
  }

  /** There is a client at the end exactly when the chain is there and a client can be had; then the chain is
      unique, and the client is its Instance's. */
  lemma WalkEndsAtChain(w: Walk, ns: string, pipelineRef: string)
    ensures w.JobResolves(ns, pipelineRef) <==> w.JobClient(ns, pipelineRef).Some?
    ensures forall p, t, i :: JobChain(w.cluster, ns, pipelineRef, p, t, i) ==>
              w.JobClient(ns, pipelineRef) == ClientOf(w.cluster, w.store, i.instance)
    ensures w.JobClient(ns, pipelineRef).Some? ==> LinksReady(w.cluster, ns, pipelineRef)
  {
    if w.JobClient(ns, pipelineRef).Some? {
      var p := w.cluster.pipelines[(ns, pipelineRef)];
      var t := w.cluster.teams[(ns, p.teamRef)];
      var i := w.cluster.instances[(ns, t.instanceRef)];
      assert JobChain(w.cluster, ns, pipelineRef, p, t, i);
    }
  }

  /** The resolver fails exactly where a link is broken. */
  lemma FailsIffBroken(w: Walk, ns: string, pipelineRef: string)
    ensures !w.JobResolves(ns, pipelineRef) <==> exists e :: JobBreaks(w, ns, pipelineRef, e)
  {
    WalkEndsAtChain(w, ns, pipelineRef);
    if w.JobClient(ns, pipelineRef).None? {
      assert exists e :: JobBreaks(w, ns, pipelineRef, e) by {
        assert JobBreaks(w, ns, pipelineRef, PipelineMissing) || JobBreaks(w, ns, pipelineRef, PipelineNotReady)
            || JobBreaks(w, ns, pipelineRef, TeamMissing) || JobBreaks(w, ns, pipelineRef, TeamNotReady)
            || JobBreaks(w, ns, pipelineRef, InstanceMissing) || JobBreaks(w, ns, pipelineRef, InstanceNotReady)
            || JobBreaks(w, ns, pipelineRef, ClientFailed);
      }
    }
  }

  /** Where the resolver succeeds, all links are ready. */
  lemma ResolvedLinksReady(w: Walk, ns: string, ref: string)
    ensures w.JobResolves(ns, ref) ==> LinksReady(w.cluster, ns, ref)
    ensures w.PipelineResolves(ns, ref) ==> TeamLinksReady(w.cluster, ns, ref)
  {}

  /** For every server, some cluster lets the resolver end there. */
  lemma ReadyWalk(ns: string, pipelineRef: string, teamRef: string, url: string) returns (w: Walk)
    ensures w.JobResolves(ns, pipelineRef) && w.PipelineResolves(ns, teamRef) && w.JobSite(ns, pipelineRef) == url
  {
    var ready: Conditions := map[READY := Condition(CondTrue, "Ready")];
    var p := PipelineRes(pipelineRef, teamRef, "", ready);
    var t := TeamRes(teamRef, "main", "", ready);
    var i := InstanceRes(Instance(Ident(ns, "main", "1"), InstanceSpec(url, {})), ready);
    w := Walk(Cluster(map[(ns, pipelineRef) := p], map[(ns, teamRef) := t], map[(ns, "main") := i], [], map[]), map[]);
    assert JobChain(w.cluster, ns, pipelineRef, p, t, i);
  }

  /** An error leaves the cache alone. */
  method GetOrBuildHonest(cluster: Cluster, cache: Cache, key: ObjectKey) returns (cl: Option<Client>)
    requires key in cluster.instances && Honest(cluster, cache.store)
    modifies cache
    ensures Honest(cluster, cache.store)
    ensures cl == ClientOf(cluster, old(cache.store), cluster.instances[key].instance)
    ensures cl.Some? ==> IsClientOf(cluster, cluster.instances[key].instance, cl.value)
    ensures cl.Some? ==> ClientOf(cluster, cache.store, cluster.instances[key].instance) == cl
    ensures cl.None? ==> cache.store == old(cache.store)
  {
    var i := cluster.instances[key].instance;
    cl := cache.GetOrBuild(i, cluster.secrets);
    assert cl.Some? ==> IsClientOf(cluster, i, cl.value) by {
      var all := cluster.past + [cluster.secrets];
      assert all[|cluster.past|] == cluster.secrets;
    }
    forall k <- cluster.instances
      ensures HasEntry(cache.store, cluster.instances[k].instance.id) ==>
                IsClientOf(cluster, cluster.instances[k].instance, cache.store[CacheKey(cluster.instances[k].instance.id)])
    {
      var j := cluster.instances[k].instance;
      if cl.Some? && cache.store != old(cache.store) {
        if SameInstance(i.id, j.id) {
          OwnEntries(old(cache.store), i.id, cl.value, j.id);
        } else {
          OthersUntouched(old(cache.store), i.id, cl.value, j.id);
        }
      }
    }
  }

  /** resolveInstanceForTeam: succeeds exactly on the Team's chain; an error names the broken link. */
  method ResolveInstanceForTeam(cluster: Cluster, cache: Cache, ns: string, team: TeamRes) returns (r: Result<Client>)
    requires Honest(cluster, cache.store)
    modifies cache
    ensures Honest(cluster, cache.store)
    ensures r.Ok? <==> Walk(cluster, old(cache.store)).TeamResolves(ns, team.instanceRef)
    ensures forall i :: r.Ok? && TeamChain(cluster, ns, team.instanceRef, i) ==>
              Some(r.value) == ClientOf(cluster, old(cache.store), i.instance) && IsClientOf(cluster, i.instance, r.value)
    ensures r.Err? ==> cache.store == old(cache.store)
    ensures forall e :: r == Err(e) <==> TeamBreaks(Walk(cluster, old(cache.store)), ns, team.instanceRef, e)
  {
    var key := (ns, team.instanceRef);
    if key !in cluster.instances {
      return Err(InstanceMissing);
    }
    var i := cluster.instances[key];
    if !IsReady(i.conds) {
      return Err(InstanceNotReady);
    }
    var cl := GetOrBuildHonest(cluster, cache, key);
    assert TeamChain(cluster, ns, team.instanceRef, i);
    if cl.None? {
      return Err(ClientFailed);
    }
    return Ok(cl.value);
  }

  /** resolveClientForPipeline: the client and the Team's name, defaulted. */
  method ResolveClientForPipeline(cluster: Cluster, cache: Cache, ns: string, p: PipelineRes)
      returns (r: Result<(Client, string)>)
    requires Honest(cluster, cache.store)
    modifies cache
    ensures Honest(cluster, cache.store)
    ensures r.Ok? <==> Walk(cluster, old(cache.store)).PipelineResolves(ns, p.teamRef)
    ensures forall t, i :: r.Ok? && PipelineChain(cluster, ns, p.teamRef, t, i) ==>
              && Some(r.value.0) == ClientOf(cluster, old(cache.store), i.instance) && IsClientOf(cluster, i.instance, r.value.0)
              && (t.teamName != "" ==> r.value.1 == t.teamName) && (t.teamName == "" ==> r.value.1 == t.name)
    ensures r.Err? ==> cache.store == old(cache.store)
    ensures r.Ok? ==> TeamLinksReady(cluster, ns, p.teamRef)
    ensures forall e :: r == Err(e) <==> PipelineBreaks(Walk(cluster, old(cache.store)), ns, p.teamRef, e)
  {
    var key := (ns, p.teamRef);
    if key !in cluster.teams {
      return Err(TeamMissing);
    }
    var t := cluster.teams[key];
    if !IsReady(t.conds) {
      return Err(TeamNotReady);
    }
    var cl := ResolveInstanceForTeam(cluster, cache, ns, t);
    if cl.Err? {
      return Err(cl.error);
    }
    ghost var i :| TeamChain(cluster, ns, t.instanceRef, i) && ClientOf(cluster, old(cache.store), i.instance).Some?;
    assert PipelineChain(cluster, ns, p.teamRef, t, i);
    return Ok((cl.value, if t.teamName == "" then t.name else t.teamName));
  }

  /** resolveClientForJob: succeeds exactly when Pipeline, Team and Instance exist in the Job's namespace and are
      ready and the client can be had; returns that Instance's client and the defaulted names. */
  method ResolveClientForJob(cluster: Cluster, cache: Cache, ns: string, pipelineRef: string)
      returns (r: Result<(Client, string, string)>)
    requires Honest(cluster, cache.store)
    modifies cache
    ensures Honest(cluster, cache.store)
    ensures r.Ok? <==> Walk(cluster, old(cache.store)).JobResolves(ns, pipelineRef)
    ensures forall p, t, i :: r.Ok? && JobChain(cluster, ns, pipelineRef, p, t, i) ==>
              && Some(r.value.0) == ClientOf(cluster, old(cache.store), i.instance) && IsClientOf(cluster, i.instance, r.value.0)
              && (t.teamName != "" ==> r.value.1 == t.teamName) && (t.teamName == "" ==> r.value.1 == t.name)
              && (p.pipelineName != "" ==> r.value.2 == p.pipelineName) && (p.pipelineName == "" ==> r.value.2 == p.name)
    ensures r.Err? ==> cache.store == old(cache.store)
    ensures r.Ok? ==> LinksReady(cluster, ns, pipelineRef)
    ensures forall e :: r == Err(e) <==> JobBreaks(Walk(cluster, old(cache.store)), ns, pipelineRef, e)
  {
    var key := (ns, pipelineRef);
    if key !in cluster.pipelines {
      return Err(PipelineMissing);
    }
    var p := cluster.pipelines[key];
    if !IsReady(p.conds) {
      return Err(PipelineNotReady);
    }
    var cl := ResolveClientForPipeline(cluster, cache, ns, p);
    if cl.Err? {
      return Err(cl.error);
    }
    ghost var t, i :| PipelineChain(cluster, ns, p.teamRef, t, i) && ClientOf(cluster, old(cache.store), i.instance).Some?;
    assert JobChain(cluster, ns, pipelineRef, p, t, i);
    return Ok((cl.value.0, cl.value.1, if p.pipelineName == "" then p.name else p.pipelineName));
  }

  /** The gate of the Resource reconcile: it looks at the Pipeline itself before it resolves, and lets a call to
      Concourse through on exactly the chain a Job with the same pipelineRef needs. */
  method ResourceGate(cluster: Cluster, cache: Cache, ns: string, pipelineRef: string)
      returns (r: Result<(Client, string, string)>)
    requires Honest(cluster, cache.store)
    modifies cache
    ensures Honest(cluster, cache.store)
    ensures r.Ok? <==> Walk(cluster, old(cache.store)).JobResolves(ns, pipelineRef)
    ensures forall p, t, i :: r.Ok? && JobChain(cluster, ns, pipelineRef, p, t, i) ==>
              && Some(r.value.0) == ClientOf(cluster, old(cache.store), i.instance) && IsClientOf(cluster, i.instance, r.value.0)
              && (t.teamName != "" ==> r.value.1 == t.teamName) && (t.teamName == "" ==> r.value.1 == t.name)
              && (p.pipelineName != "" ==> r.value.2 == p.pipelineName) && (p.pipelineName == "" ==> r.value.2 == p.name)
    ensures r.Err? ==> cache.store == old(cache.store)
    ensures r.Ok? ==> LinksReady(cluster, ns, pipelineRef)
    ensures forall e :: r == Err(e) <==> JobBreaks(Walk(cluster, old(cache.store)), ns, pipelineRef, e)
  {
    if (ns, pipelineRef) !in cluster.pipelines {
      return Err(PipelineMissing);
    }
    var p := cluster.pipelines[(ns, pipelineRef)];
    if !IsReady(p.conds) {
      return Err(PipelineNotReady);
    }
    var cl := ResolveClientForPipeline(cluster, cache, ns, p);
    match cl
    case Err(e) =>
      return Err(e);
    case Ok((client, teamName)) =>
      ghost var t, i :| PipelineChain(cluster, ns, p.teamRef, t, i) && ClientOf(cluster, old(cache.store), i.instance).Some?;
      assert JobChain(cluster, ns, pipelineRef, p, t, i);
      return Ok((client, teamName, if p.pipelineName == "" then p.name else p.pipelineName));
  }
}
