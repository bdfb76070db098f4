// The three resources the reconciler touches, as stored values, and the
// in-memory copy of the remediation record that one pass works on.

module Resources {
  import opened Wrappers
  import opened Errors
  import opened Conditions
  import Unstructured

  /** An object key: the namespace and the name. */
  datatype NamespacedName = NamespacedName(namespace: string, name: string)

  /** An owner reference; controller is absent when the reference leaves it unset. */
  datatype OwnerRef = OwnerRef(name: string, controller: Option<bool>)

  /**
   * The remediation record as stored. Its name is the unhealthy node's name;
   * deletionRequested stands for a set deletion timestamp.
   */
  datatype Record = Record(name: string, annotations: map<string, string>, deletionRequested: bool,
                           conditions: seq<Condition>)

  /** A Node; annotations is None when the node carries no annotation map at all. */
  datatype Node = Node(name: string, annotations: Option<map<string, string>>)

  /**
   * A Machine: its owner references and deletion timestamp as the typed
   * metadata accessors return them, and the rest of its body schema-less.
   */
  datatype Machine = Machine(ownerRefs: seq<OwnerRef>, deletionRequested: bool,
                             body: map<string, Unstructured.Value>)

  /**
   * The in-memory remediation object of one pass. The condition tracker
   * updates its conditions in place; the binding writer updates its
   * annotations in place.
   */
  class Remediation {
    const name: string
    const deletionRequested: bool
    var annotations: map<string, string>
    var conditions: seq<Condition>

    constructor (rec: Record)
      ensures Snapshot() == rec
    {
      name := rec.name;
      deletionRequested := rec.deletionRequested;
      annotations := rec.annotations;
      conditions := rec.conditions;
    }

    /** The object as a record value. */
    function Snapshot(): Record
      reads this
    {
      Record(name, annotations, deletionRequested, conditions)
    }

    /**
     * updateConditions: sets Processing and Succeeded for a transition
     * reason, unless that would re-arm a finished remediation or change
     * nothing; reports whether it wrote.
     */
    method UpdateConditions(reason: string) returns (changed: bool, err: Option<Error>)
      modifies this`conditions
      ensures match UpdatedConditions(old(conditions), reason)
              case Success(u) => changed == u.changed && err.None? && conditions == u.conditions
              case Failure(e) => !changed && err == Some(e) && conditions == old(conditions)
    {
      var statuses := ReasonStatuses(reason);
      if statuses.None? {
        return false, Some(UnknownReason(reason));
      }
      var (processing, succeeded) := statuses.value;

      // a Processing condition that is already False is never set to True again
      if processing == ConditionTrue && IsStatusConditionPresentAndEqual(conditions, Processing, ConditionFalse) {
        return false, None;
      }

      if IsStatusConditionPresentAndEqual(conditions, Processing, processing) &&
         IsStatusConditionPresentAndEqual(conditions, Succeeded, succeeded) {
        return false, None;
      }

      conditions := SetStatusCondition(conditions, Condition(Processing, processing, reason, ""));
      conditions := SetStatusCondition(conditions, Condition(Succeeded, succeeded, reason, ""));
      return true, None;
    }

    /**
     * setPermanentNodeDeletionExpectedCondition: records the expectation
     * status with its reason and message unless that status is already
     * recorded; reports whether it wrote.
     */
    method SetPermanentNodeDeletionExpectedCondition(status: ConditionStatus) returns (changed: bool)
      modifies this`conditions
      ensures var u := PermanentNodeDeletionExpectedSet(old(conditions), status);
              changed == u.changed && conditions == u.conditions
    {
      var reason: string, message: string;
      match status {
        case ConditionTrue =>
          reason, message := MachineDeletionOnCloudProviderReason, MachineDeletedOnCloudProviderMessage;
        case ConditionFalse =>
          reason, message := MachineDeletionOnBareMetalProviderReason, MachineDeletedOnBareMetalProviderMessage;
        case ConditionUnknown =>
          reason, message := MachineDeletionOnUndefinedProviderReason, MachineDeletedOnUnknownProviderMessage;
      }

      if IsStatusConditionPresentAndEqual(conditions, PermanentNodeDeletionExpected, status) {
        return false;
      }

      conditions := SetStatusCondition(conditions, Condition(PermanentNodeDeletionExpected, status, reason, message));
      return true;
    }
  }
}
