/** Values of the Build reconciler (internal/controller/build_controller.go): phases, the Build status,
    the Concourse build record, and the status updates a reconcile makes between its external calls. */
module BuildStatuses {
  import opened ApiServer

  /** `Unset` is the empty ConcourseStatus of a Build whose phase was never fetched. */
  datatype Phase = Unset | Pending | Started | Succeeded | Failed | Errored | Aborted

  predicate Terminal(p: Phase) {
    p.Succeeded? || p.Failed? || p.Errored? || p.Aborted?
  }

  function Rank(p: Phase): nat {
    match p
    case Unset => 0
    case Pending => 1
    case Started => 2
    case _ => 3
  }

  /** The order in which a build may move: no phase goes back, and no terminal phase is left. */
  predicate NotAfter(p: Phase, q: Phase) {
    p == q || Rank(p) < Rank(q)
  }

  /** A phase is terminal exactly if no other phase can follow it. */
  lemma TerminalIsFinal(p: Phase)
    ensures Terminal(p) <==> forall q :: NotAfter(p, q) ==> q == p
    ensures Terminal(p) <==> p in {Succeeded, Failed, Errored, Aborted}
  {
    assert NotAfter(Unset, Pending) && NotAfter(Pending, Started) && NotAfter(Started, Succeeded);
  }

  function PhaseName(p: Phase): string {
    match p
    case Unset => ""
    case Pending => "pending"
    case Started => "started"
    case Succeeded => "succeeded"
    case Failed => "failed"
    case Errored => "errored"
    case Aborted => "aborted"
  }

  /** The URL of a Concourse server. */
  type Site = string

  /** A build ID means something on its own server only. */
  datatype BuildRef = BuildRef(site: Site, id: int)

  /** A build as the server `site` reports it; times are Unix seconds, 0 when absent. */
  datatype AtcBuild =
    AtcBuild(site: Site, id: int, name: string, apiURL: string, phase: Phase, startTime: int, endTime: int,
             createdBy: Option<string>)
  {
    function Ref(): BuildRef {
      BuildRef(site, id)
    }
  }

  datatype BuildSpec = BuildSpec(jobRef: Option<string>, abort: bool)

  datatype BuildStatus =
    BuildStatus(id: int, name: string, apiURL: string, phase: Phase,
                start: Option<int>, end: Option<int>, duration: Option<int>,
                createdBy: string, observed: nat, conds: Conditions)

  const EMPTY_STATUS := BuildStatus(0, "", "", Unset, None, None, None, "", 0, map[])

  type BuildVersion = Object<BuildSpec, BuildStatus>

  /** What the create reply leaves in the status. */
  function WithCreated(st: BuildStatus, b: AtcBuild): BuildStatus {
    st.(id := b.id, name := b.name, apiURL := b.apiURL,
        start := if b.startTime > 0 then Some(b.startTime) else st.start)
  }

  /** What the refresh leaves in the status; `None` is an error or a build that was not found. */
  function WithRefresh(st: BuildStatus, b: Option<AtcBuild>): BuildStatus {
    match b
    case None => st
    case Some(b) =>
      st.(phase := b.phase,
          end := if b.endTime > 0 then Some(b.endTime) else st.end,
          createdBy := if b.createdBy.Some? then b.createdBy.value else st.createdBy)
  }

  /** Duration, the Complete and Ready conditions and the observed generation. */
  function Concluded(st: BuildStatus, generation: nat): BuildStatus {
    var complete :=
      if Terminal(st.phase) then Condition(CondTrue, PhaseName(st.phase))
      else if st.id != 0 then Condition(CondFalse, "InProgress")
      else Condition(CondUnknown, "Pending");
    st.(duration := if st.start.Some? && st.end.Some? then Some(st.end.value - st.start.value) else st.duration,
        observed := generation,
        conds := SetCondition(SetCondition(st.conds, COMPLETE, complete.status, complete.reason),
                              READY, CondTrue, "Tracked"))
  }

  function NotReady(st: BuildStatus, reason: string): BuildStatus {
    st.(conds := SetCondition(st.conds, READY, CondFalse, reason))
  }

  /** Complete tells the end of the build by its name, and is False before it. */
  predicate CompleteTells(st: BuildStatus) {
    && (COMPLETE in st.conds <==> st.id != 0)
    && (st.phase == Succeeded <==> Has(st.conds, "Complete", CondTrue, "succeeded"))
    && (st.phase == Failed <==> Has(st.conds, "Complete", CondTrue, "failed"))
    && (st.phase == Errored <==> Has(st.conds, "Complete", CondTrue, "errored"))
    && (st.phase == Aborted <==> Has(st.conds, "Complete", CondTrue, "aborted"))
    && (st.id != 0 && st.phase !in {Succeeded, Failed, Errored, Aborted} <==> Has(st.conds, "Complete", CondFalse, "InProgress"))
  }

  /** Ready is True for a tracked build, and False with the reason why it is not tracked now; a build that exists
      was triggered. */
  predicate ReadyTells(st: BuildStatus) {
    READY in st.conds ==>
      || (Has(st.conds, "Ready", CondTrue, "Tracked") && st.id != 0)
      || Has(st.conds, "Ready", CondFalse, "NoJobRef")
      || Has(st.conds, "Ready", CondFalse, "ChainNotReady")
      || (Has(st.conds, "Ready", CondFalse, "TriggerFailed") && st.id == 0)
  }

  /** What a reader of a stored Build may rely on. */
  predicate Coherent(st: BuildStatus) {
    && CompleteTells(st)
    && ReadyTells(st)
    && (Terminal(st.phase) ==> Has(st.conds, "Ready", CondTrue, "Tracked"))
    && (st.observed != 0 <==> st.id != 0)
    && (st.phase != Unset || st.start.Some? || st.end.Some? ==> st.id != 0)
    && (st.duration.Some? <==> st.start.Some? && st.end.Some?)
    && (st.duration.Some? ==> st.duration.value == st.end.value - st.start.value)
  }

  /** The Build object a reconcile holds and updates field by field. */
  class BuildObject {
    var id: int
    var name: string
    var apiURL: string
    var phase: Phase
    var start: Option<int>
    var end: Option<int>
    var duration: Option<int>
    var createdBy: string
    var observed: nat
    var conds: Conditions
    var generation: nat

    constructor (version: BuildVersion)
      ensures Status() == version.status && generation == version.generation
    {
      var st := version.status;
      id, name, apiURL, phase := st.id, st.name, st.apiURL, st.phase;
      start, end, duration := st.start, st.end, st.duration;
      createdBy, observed, conds := st.createdBy, st.observed, st.conds;
      generation := version.generation;
    }

    function Status(): BuildStatus
      reads this
    {
      BuildStatus(id, name, apiURL, phase, start, end, duration, createdBy, observed, conds)
    }

    method ApplyCreated(b: AtcBuild)
      modifies this
      ensures generation == old(generation)
      ensures Status() == WithCreated(old(Status()), b)
    {
      id := b.id;
      name := b.name;
      apiURL := b.apiURL;
      if b.startTime > 0 {
        start := Some(b.startTime);
      }
    }

    method ApplyRefresh(b: AtcBuild)
      modifies this
      ensures generation == old(generation)
      ensures Status() == WithRefresh(old(Status()), Some(b))
    {
      phase := b.phase;
      if b.endTime > 0 {
        end := Some(b.endTime);
      }
      if b.createdBy.Some? {
        createdBy := b.createdBy.value;
      }
    }

    method Conclude()
      modifies this
      ensures generation == old(generation)
      ensures Status() == Concluded(old(Status()), generation)
    {
      if start.Some? && end.Some? {
        duration := Some(end.value - start.value);
      }
      if Terminal(phase) {
        conds := SetCondition(conds, COMPLETE, CondTrue, PhaseName(phase));
      } else if id != 0 {
        conds := SetCondition(conds, COMPLETE, CondFalse, "InProgress");
      } else {
        conds := SetCondition(conds, COMPLETE, CondUnknown, "Pending");
      }
      observed := generation;
      conds := SetCondition(conds, READY, CondTrue, "Tracked");
    }

    /** The status updates of one reconcile for the given replies: `made` is the create reply, if this
        reconcile created the build, and `found` the refresh reply. */
    method Track(made: Option<AtcBuild>, found: Option<AtcBuild>)
      modifies this
      ensures generation == old(generation)
      ensures var working := if made.Some? then WithCreated(old(Status()), made.value) else old(Status());
              Status() == Concluded(WithRefresh(working, if working.id != 0 then found else None), generation)
    {
      if made.Some? {
        ApplyCreated(made.value);
      }
      if id != 0 && found.Some? {
        ApplyRefresh(found.value);
      }
      Conclude();
    }
  }
}
