/** The Pipeline reconcile between resolving its client and writing its status: load the config, apply it
    if its hash changed, sync pause and exposure, fetch metadata
    (internal/controller/pipeline_controller.go). */
module PipelineStatuses {
  import opened ApiServer

  datatype ConfigSource = ConfigSource(inline: string, configMapRef: Option<(string, string)>)

  datatype PipelineSpec = PipelineSpec(teamRef: string, config: ConfigSource, paused: bool, exposed: bool)

  datatype PipelineStatus =
    PipelineStatus(hash: string, id: int, paused: bool, exposed: bool, groups: nat, lastUpdated: Option<int>,
                   observed: nat, conds: Conditions)

  const EMPTY_STATUS := PipelineStatus("", 0, false, false, 0, None, 0, map[])

  /** The pipeline as Concourse holds it. */
  datatype AtcPipeline =
    AtcPipeline(id: int, config: string, paused: bool, exposed: bool, groups: nat, lastUpdated: int)

  type Server = Option<AtcPipeline>

  type ConfigMaps = map<string, map<string, string>>

  /** SHA-256 in hexadecimal: never empty; injective where that is assumed. */
  type HashFn = string -> string

  ghost predicate GoodHash(hash: HashFn) {
    && (forall x :: hash(x) != "")
    && (forall x, y :: hash(x) == hash(y) ==> x == y)
  }

  /** loadPipelineConfig: inline first, then the ConfigMap key; `None` is each of its errors. `unreadable`: the
      ConfigMap cannot be read now, whether it exists or not. */
  function LoadConfig(cfg: ConfigSource, maps: ConfigMaps, unreadable: bool): Option<string> {
    if cfg.inline != "" then
      Some(cfg.inline)
    else if cfg.configMapRef.None? || unreadable then
      None
    else
      var (name, key) := cfg.configMapRef.value;
      if name in maps && key in maps[name] then Some(maps[name][key]) else None
  }

  /** An inline config hides the ConfigMaps; otherwise the config is what the referenced key holds, if it can be
      read, and nothing else in any ConfigMap matters. */
  lemma ConfigComesFromItsSource(cfg: ConfigSource, maps: ConfigMaps, maps': ConfigMaps, unreadable: bool)
    ensures cfg.inline != "" ==> LoadConfig(cfg, maps, unreadable) == Some(cfg.inline)
    ensures cfg.inline == "" ==>
              forall x :: LoadConfig(cfg, maps, unreadable) == Some(x) <==>
                && !unreadable && cfg.configMapRef.Some?
                && Holds(maps, cfg.configMapRef.value.0, cfg.configMapRef.value.1, x)
    ensures (cfg.configMapRef.Some? ==>
               forall x :: Holds(maps, cfg.configMapRef.value.0, cfg.configMapRef.value.1, x) <==>
                           Holds(maps', cfg.configMapRef.value.0, cfg.configMapRef.value.1, x))
            ==> LoadConfig(cfg, maps, unreadable) == LoadConfig(cfg, maps', unreadable)
  {
    if cfg.inline == "" && cfg.configMapRef.Some? {
      var (name, key) := cfg.configMapRef.value;
      if name in maps && key in maps[name] { assert Holds(maps, name, key, maps[name][key]); }
      if name in maps' && key in maps'[name] { assert Holds(maps', name, key, maps'[name][key]); }
    }
  }

  predicate Holds(maps: ConfigMaps, name: string, key: string, x: string) {
    name in maps && key in maps[name] && maps[name][key] == x
  }

  /** Replies of Concourse to the calls of one reconcile. An apply that fails has no effect. */
  datatype ApplyReply = ApplyOk(newID: int, groups: nat, updated: int, warnings: bool) | ApplyError

  datatype Replies = Replies(apply: ApplyReply, pauseOk: bool, exposeOk: bool, fetchOk: bool)

  predicate NeedsApply(hash: HashFn, st: PipelineStatus, desired: string) {
    st.hash != hash(desired) || st.id == 0
  }

  /** CreateOrUpdatePipelineConfig on the server; a new pipeline starts paused and hidden. */
  function Applied(server: Server, desired: string, reply: ApplyReply): Server {
    match reply
    case ApplyError => server
    case ApplyOk(newID, groups, updated, _) =>
      match server
      case None => Some(AtcPipeline(newID, desired, true, false, groups, updated))
      case Some(p) => Some(p.(config := desired, groups := groups, lastUpdated := updated))
  }

  function Paused(server: Server, paused: bool): Server {
    match server
    case None => None
    case Some(p) => Some(p.(paused := paused))
  }

  function Exposed(server: Server, exposed: bool): Server {
    match server
    case None => None
    case Some(p) => Some(p.(exposed := exposed))
  }

  function StatusApplied(st: PipelineStatus, newHash: string, warnings: bool): PipelineStatus {
    var warned := if warnings then Condition(CondTrue, "HasWarnings") else Condition(CondFalse, "NoWarnings");
    st.(hash := newHash,
        conds := SetCondition(SetCondition(st.conds, "ConfigWarning", warned.status, warned.reason),
                              "ConfigSynced", CondTrue, "Synced"))
  }

  function StatusApplyFailed(st: PipelineStatus): PipelineStatus {
    st.(conds := SetCondition(SetCondition(st.conds, "ConfigSynced", CondFalse, "SetPipelineFailed"),
                              READY, CondFalse, "SetPipelineFailed"))
  }

  function StatusFetched(st: PipelineStatus, server: Server): PipelineStatus {
    match server
    case None => st
    case Some(p) =>
      st.(id := p.id, groups := p.groups,
          lastUpdated := if p.lastUpdated > 0 then Some(p.lastUpdated) else st.lastUpdated)
  }

  function StatusReady(st: PipelineStatus, generation: nat): PipelineStatus {
    st.(observed := generation, conds := SetCondition(st.conds, READY, CondTrue, "Ready"))
  }

  function NotReady(st: PipelineStatus, reason: string): PipelineStatus {
    st.(conds := SetCondition(st.conds, READY, CondFalse, reason))
  }

  /** The outcome of one pass: whether it got past the config apply, whether it made that call, and the
      status and server it leaves. */
  datatype PassResult = PassResult(synced: bool, applied: bool, status: PipelineStatus, server: Server)

  /** One pass with a loaded config, uninterrupted. */
  function Pass(hash: HashFn, spec: PipelineSpec, generation: nat, desired: string,
                st: PipelineStatus, server: Server, rs: Replies): PassResult {
    var needs := NeedsApply(hash, st, desired);
    if needs && rs.apply.ApplyError? then
      PassResult(false, true, StatusApplyFailed(st), server)
    else
      var st1 := if needs then StatusApplied(st, hash(desired), rs.apply.warnings) else st;
      var sv1 := if needs then Applied(server, desired, rs.apply) else server;
      var st2 := if rs.pauseOk then st1.(paused := spec.paused) else st1;
      var sv2 := if rs.pauseOk then Paused(sv1, spec.paused) else sv1;
      var st3 := if rs.exposeOk then st2.(exposed := spec.exposed) else st2;
      var sv3 := if rs.exposeOk then Exposed(sv2, spec.exposed) else sv2;
      var st4 := if rs.fetchOk then StatusFetched(st3, sv3) else st3;
      PassResult(true, needs, StatusReady(st4, generation), sv3)
  }

  /** When a pass makes the apply call: if the recorded ID is 0, whatever the hash, or the recorded hash is not that
      of the wanted config. So with ID 0 a successful call always leaves the wanted config. */
  lemma AppliesIff(hash: HashFn, spec: PipelineSpec, generation: nat, desired: string,
                   st: PipelineStatus, server: Server, rs: Replies)
    ensures var p := Pass(hash, spec, generation, desired, st, server, rs);
            && (p.applied <==> st.id == 0 || st.hash != hash(desired))
            && (p.synced <==> !p.applied || rs.apply.ApplyOk?)
            && (p.applied && p.synced ==> p.server.Some? && p.server.value.config == desired)
            && (!p.synced ==> p.server == server)
            && (!p.applied ==> (p.server.Some? <==> server.Some?) && (server.Some? ==> p.server.value.config == server.value.config))
  {}

  /** What the status of a pass tells, for all replies: which conditions, the hash, and the flags that a call has
      set. */
  lemma PassTells(hash: HashFn, spec: PipelineSpec, generation: nat, desired: string,
                  st: PipelineStatus, server: Server, rs: Replies)
    ensures var p := Pass(hash, spec, generation, desired, st, server, rs);
            var st' := p.status;
            && (!p.synced ==>
                  && Has(st'.conds, "Ready", CondFalse, "SetPipelineFailed")
                  && Has(st'.conds, "ConfigSynced", CondFalse, "SetPipelineFailed")
                  && SameCondition(st.conds, st'.conds, "ConfigWarning")
                  && st' == st.(conds := st'.conds))
            && (p.synced ==>
                  && Has(st'.conds, "Ready", CondTrue, "Ready") && st'.observed == generation
                  && st'.paused == (if rs.pauseOk then spec.paused else st.paused)
                  && st'.exposed == (if rs.exposeOk then spec.exposed else st.exposed))
            && (p.synced && p.applied ==>
                  && st'.hash == hash(desired)
                  && Has(st'.conds, "ConfigSynced", CondTrue, "Synced")
                  && (rs.apply.warnings ==> Has(st'.conds, "ConfigWarning", CondTrue, "HasWarnings"))
                  && (!rs.apply.warnings ==> Has(st'.conds, "ConfigWarning", CondFalse, "NoWarnings")))
            && (!p.applied ==>
                  && st'.hash == st.hash && SameCondition(st.conds, st'.conds, "ConfigSynced")
                  && SameCondition(st.conds, st'.conds, "ConfigWarning"))
  {}

  /** What a pass has fetched. */
  lemma PassFetches(hash: HashFn, spec: PipelineSpec, generation: nat, desired: string,
                    st: PipelineStatus, server: Server, rs: Replies)
    ensures var p := Pass(hash, spec, generation, desired, st, server, rs);
            var st' := p.status;
            && (p.synced && rs.fetchOk && p.server.Some? ==>
                  && st'.id == p.server.value.id && st'.groups == p.server.value.groups
                  && (p.server.value.lastUpdated > 0 ==> st'.lastUpdated == Some(p.server.value.lastUpdated))
                  && (p.server.value.lastUpdated <= 0 ==> st'.lastUpdated == st.lastUpdated))
            && (p.synced && (!rs.fetchOk || p.server.None?) ==>
                  st'.id == st.id && st'.groups == st.groups && st'.lastUpdated == st.lastUpdated)
  {}

  /** What a pass does to the server besides the config: each flag is set exactly by its call, and a new pipeline
      starts paused and hidden under the ID that Concourse gives it. */
  lemma PassMoves(hash: HashFn, spec: PipelineSpec, generation: nat, desired: string,
                  st: PipelineStatus, server: Server, rs: Replies)
    ensures var p := Pass(hash, spec, generation, desired, st, server, rs);
            p.synced && p.server.Some? ==>
              && p.server.value.paused == (if rs.pauseOk then spec.paused else server.None? || server.value.paused)
              && p.server.value.exposed == (if rs.exposeOk then spec.exposed else server.Some? && server.value.exposed)
              && p.server.value.id == (if server.Some? then server.value.id else rs.apply.newID)
              && (p.applied ==> p.server.value.groups == rs.apply.groups && p.server.value.lastUpdated == rs.apply.updated)
  {}

  // ----- The reconcile in place -----

  /** The Concourse team, seen through the one pipeline of this object. */
  class ConcourseTeam {
    var pipeline: Server

    method CreateOrUpdatePipelineConfig(config: string, reply: ApplyReply)
      modifies this
      ensures pipeline == Applied(old(pipeline), config, reply)
    {
      if reply.ApplyOk? {
        if pipeline.None? {
          pipeline := Some(AtcPipeline(reply.newID, config, true, false, reply.groups, reply.updated));
        } else {
          pipeline := Some(pipeline.value.(config := config, groups := reply.groups, lastUpdated := reply.updated));
        }
      }
    }

    method SetPaused(paused: bool)
      modifies this
      ensures pipeline == Paused(old(pipeline), paused)
    {
      if pipeline.Some? {
        pipeline := Some(pipeline.value.(paused := paused));
      }
    }

    method SetExposed(exposed: bool)
      modifies this
      ensures pipeline == Exposed(old(pipeline), exposed)
    {
      if pipeline.Some? {
        pipeline := Some(pipeline.value.(exposed := exposed));
      }
    }
  }

  /** The Pipeline object a reconcile holds and updates field by field. */
  class PipelineObject {
    const spec: PipelineSpec
    const generation: nat
    var hash: string
    var id: int
    var paused: bool
    var exposed: bool
    var groups: nat
    var lastUpdated: Option<int>
    var observed: nat
    var conds: Conditions

    constructor (version: Object<PipelineSpec, PipelineStatus>)
      ensures spec == version.spec && generation == version.generation && Status() == version.status
    {
      spec, generation := version.spec, version.generation;
      var st := version.status;
      hash, id, paused, exposed := st.hash, st.id, st.paused, st.exposed;
      groups, lastUpdated, observed, conds := st.groups, st.lastUpdated, st.observed, st.conds;
    }

    function Status(): PipelineStatus
      reads this
    {
      PipelineStatus(hash, id, paused, exposed, groups, lastUpdated, observed, conds)
    }

    method RecordApplied(newHash: string, warnings: bool)
      modifies this
      ensures Status() == StatusApplied(old(Status()), newHash, warnings)
    {
      if warnings {
        conds := SetCondition(conds, "ConfigWarning", CondTrue, "HasWarnings");
      } else {
        conds := SetCondition(conds, "ConfigWarning", CondFalse, "NoWarnings");
      }
      conds := SetCondition(conds, "ConfigSynced", CondTrue, "Synced");
      hash := newHash;
    }

    /** Pause and exposure are set whatever they were; a failed call leaves the status alone. */
    method SyncFlags(team: ConcourseTeam, pauseOk: bool, exposeOk: bool)
      modifies this, team
      ensures Status() == old(Status()).(paused := if pauseOk then spec.paused else old(paused),
                                         exposed := if exposeOk then spec.exposed else old(exposed))
      ensures var sv := if pauseOk then Paused(old(team.pipeline), spec.paused) else old(team.pipeline);
              team.pipeline == if exposeOk then Exposed(sv, spec.exposed) else sv
    {
      if pauseOk {
        team.SetPaused(spec.paused);
        paused := spec.paused;
      }
      if exposeOk {
        team.SetExposed(spec.exposed);
        exposed := spec.exposed;
      }
    }

    method Fetch(team: ConcourseTeam, fetchOk: bool)
      modifies this
      ensures Status() == StatusReady(if fetchOk then StatusFetched(old(Status()), team.pipeline) else old(Status()),
                                      generation)
    {
      if fetchOk && team.pipeline.Some? {
        var p := team.pipeline.value;
        id := p.id;
        groups := p.groups;
        if p.lastUpdated > 0 {
          lastUpdated := Some(p.lastUpdated);
        }
      }
      observed := generation;
      conds := SetCondition(conds, READY, CondTrue, "Ready");
    }

    /** The reconcile from the hash comparison up to the status write. */
    method Sync(team: ConcourseTeam, hashFn: HashFn, desired: string, rs: Replies) returns (synced: bool)
      modifies this, team
      ensures var p := Pass(hashFn, spec, generation, desired, old(Status()), old(team.pipeline), rs);
              synced == p.synced && Status() == p.status && team.pipeline == p.server
    {
      var newHash := hashFn(desired);
      if hash != newHash || id == 0 {
        team.CreateOrUpdatePipelineConfig(desired, rs.apply);
        if rs.apply.ApplyError? {
          conds := SetCondition(conds, "ConfigSynced", CondFalse, "SetPipelineFailed");
          conds := SetCondition(conds, READY, CondFalse, "SetPipelineFailed");
          return false;
        }
        RecordApplied(newHash, rs.apply.warnings);
      }
      SyncFlags(team, rs.pauseOk, rs.exposeOk);
      Fetch(team, rs.fetchOk);
      return true;
    }
  }

  // ----- Convergence -----

  /** A recorded hash is the hash of the config on the server. */
  ghost predicate Match(hash: HashFn, st: PipelineStatus, server: Server) {
    st.hash != "" ==> server.Some? && hash(server.value.config) == st.hash
  }

  predicate FaultFree(rs: Replies) {
    rs.apply.ApplyOk? && rs.apply.newID > 0 && rs.pauseOk && rs.exposeOk && rs.fetchOk
  }

  /** One fault-free pass makes the server what the spec says; a second one applies nothing and changes
      neither the status nor the server. */
  lemma PipelineConverges(hash: HashFn, spec: PipelineSpec, generation: nat, desired: string,
                          st: PipelineStatus, server: Server, rs: Replies, rs': Replies)
    requires GoodHash(hash) && Match(hash, st, server) && FaultFree(rs) && FaultFree(rs')
    requires server.Some? ==> server.value.id > 0
    ensures var p := Pass(hash, spec, generation, desired, st, server, rs);
            && p.synced && p.server.Some?
            && p.server.value.config == desired
            && p.server.value.paused == spec.paused && p.server.value.exposed == spec.exposed
            && Match(hash, p.status, p.server)
            && p.status.hash == hash(desired) && p.status.id == p.server.value.id
            && p.status.paused == spec.paused && p.status.exposed == spec.exposed
            && p.status.groups == p.server.value.groups
            && (p.server.value.lastUpdated > 0 ==> p.status.lastUpdated == Some(p.server.value.lastUpdated))
            && p.status.observed == generation && IsStatusConditionTrue(p.status.conds, READY)
            && (p.applied ==>
                  && IsStatusConditionTrue(p.status.conds, "ConfigSynced")
                  && (IsStatusConditionTrue(p.status.conds, "ConfigWarning") <==> rs.apply.warnings))
            && Pass(hash, spec, generation, desired, p.status, p.server, rs')
               == PassResult(true, false, p.status, p.server)
  {
    var p := Pass(hash, spec, generation, desired, st, server, rs);
    assert p.status.conds[READY] == Condition(CondTrue, "Ready");
    assert SetCondition(p.status.conds, READY, CondTrue, "Ready") == p.status.conds;
  }

  /** After the status write of an applied config was lost, the next pass repairs the server exactly when
      it is not asked to go back to the config that is still recorded, or no ID is recorded. */
  lemma LostWriteHealsIff(hash: HashFn, spec: PipelineSpec, generation: nat, recorded: string, desired: string,
                          st: PipelineStatus, server: Server, rs: Replies)
    requires GoodHash(hash) && FaultFree(rs)
    requires st.hash == hash(recorded)
    requires server.Some? && server.value.config != recorded
    ensures var p := Pass(hash, spec, generation, desired, st, server, rs);
            p.server.Some? && (p.server.value.config == desired <==> desired != recorded || st.id == 0)
  {}

  /** Config A, then B with its status write lost, then A again: the last pass reports success and leaves
      B on the server. */
  lemma LostWriteSkipsWrongly(hash: HashFn, spec: PipelineSpec, generation: nat, a: string, b: string, rs: Replies)
    requires GoodHash(hash) && FaultFree(rs) && a != b
    ensures var first := Pass(hash, spec, generation, a, EMPTY_STATUS, None, rs);
            var lost := Pass(hash, spec, generation, b, first.status, first.server, rs);
            var last := Pass(hash, spec, generation, a, first.status, lost.server, rs);
            && last.synced && !last.applied && last.status.conds[READY].status == CondTrue
            && last.server.Some? && last.server.value.config == b
  {
    PipelineConverges(hash, spec, generation, a, EMPTY_STATUS, None, rs, rs);
    var first := Pass(hash, spec, generation, a, EMPTY_STATUS, None, rs);
    PipelineConverges(hash, spec, generation, b, first.status, first.server, rs, rs);
    var lost := Pass(hash, spec, generation, b, first.status, first.server, rs);
    LostWriteHealsIff(hash, spec, generation, a, a, first.status, lost.server, rs);
  }
}
