/** The parts of the Kubernetes API server that every reconciler of the operator relies on:
    status conditions keyed by type, and one stored object under optimistic concurrency.

    A stored object is its history of versions. The resourceVersion of a copy is the index of the
    version it was read from, so "the resourceVersion is still current" is "the index is the last one". */
module ApiServer {

  datatype Option<+T> = None | Some(value: T)

  datatype CondStatus = CondTrue | CondFalse | CondUnknown

  datatype Condition = Condition(status: CondStatus, reason: string)

  /** The conditions list is a map list keyed by condition type (`+listMapKey=type`). */
  type Conditions = map<string, Condition>

  const READY := "Ready"
  const COMPLETE := "Complete"

  function SetCondition(cs: Conditions, condType: string, status: CondStatus, reason: string): Conditions {
    cs[condType := Condition(status, reason)]
  }

  /** The condition of that type is there, with that status and reason. */
  predicate Has(cs: Conditions, condType: string, status: CondStatus, reason: string) {
    condType in cs && cs[condType] == Condition(status, reason)
  }

  /** The condition of that type is as it was. */
  predicate SameCondition(cs: Conditions, cs': Conditions, condType: string) {
    (condType in cs' <==> condType in cs) && (condType in cs ==> cs'[condType] == cs[condType])
  }

  predicate IsStatusConditionTrue(cs: Conditions, condType: string) {
    condType in cs && cs[condType].status == CondTrue
  }

  /** One version of a stored object. `finalizer` is the finalizer of this operator. */
  datatype Object<Spec, Status> =
    Object(generation: nat, deleting: bool, finalizer: bool, spec: Spec, status: Status)

  /** What becomes of a write request: stored and acknowledged; stored, but the caller sees an error
      (a timeout, say); or not stored, because of a conflict or any other error. */
  datatype Fate = Acked | Unacked | Rejected

  function Last<T>(history: seq<T>): T
    requires |history| > 0
  {
    history[|history| - 1]
  }

  predicate IsCurrent<T>(history: seq<T>, version: nat) {
    version + 1 == |history|
  }

  /** A write that changes nothing keeps the resourceVersion; any other write makes a new version. */
  function Put<T(==)>(history: seq<T>, obj: T): seq<T>
    requires |history| > 0
  {
    if Last(history) == obj then history else history + [obj]
  }

  /** A status update replaces the status of the current version and nothing else. */
  function PutStatus<Spec(==), Status(==)>(history: seq<Object<Spec, Status>>, status: Status):
      seq<Object<Spec, Status>>
    requires |history| > 0
  {
    Put(history, Last(history).(status := status))
  }

  /** A user's edit of the spec is always a new version; the generation moves only if the spec does. */
  function PutSpec<Spec(==), Status>(history: seq<Object<Spec, Status>>, spec: Spec): seq<Object<Spec, Status>>
    requires |history| > 0
  {
    var o := Last(history);
    history + [o.(spec := spec, generation := if o.spec == spec then o.generation else o.generation + 1)]
  }
}
