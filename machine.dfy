// What the reconciler reads off a Machine: the provider ID and phase through
// the schema-less accessors, the platform classification of the provider ID,
// and the controller-owner check.

module MachineFields {
  import opened Wrappers
  import opened Errors
  import opened Conditions
  import opened Resources
  import opened Unstructured

  /**
   * getMachineProviderID: a missing spec or a missing spec.providerID reads
   * as "", a spec or providerID of the wrong type (null included) is an error.
   */
  function GetMachineProviderID(body: map<string, Value>): (r: Result<string, Error>)
    ensures r.Failure? <==>
      ("spec" in body && !body["spec"].Object?) ||
      ("spec" in body && body["spec"].Object? && "providerID" in body["spec"].fields &&
       !body["spec"].fields["providerID"].Str?)
    ensures r.Success? && r.value != "" ==>
      "spec" in body && body["spec"].Object? && "providerID" in body["spec"].fields &&
      body["spec"].fields["providerID"] == Str(r.value)
    ensures ("spec" !in body || (body["spec"].Object? && "providerID" !in body["spec"].fields)) ==>
      r == Success("")
  {
    match NestedMap(body, ["spec"])
    case WrongType => Failure(FieldAccess(["spec"]))
    case Absent => Success("")
    case Found(spec) =>
      match NestedString(spec, ["providerID"])
      case WrongType => Failure(FieldAccess(["spec", "providerID"]))
      case Absent => Success("")
      case Found(providerID) => Success(providerID)
  }

  /** The body holds a status map whose phase is a string. */
  predicate HasStringPhase(body: map<string, Value>)
  {
    "status" in body && body["status"].Object? && "phase" in body["status"].fields &&
    body["status"].fields["phase"].Str?
  }

  /**
   * getMachineStatusPhase: status.phase when it is a string, and "unknown"
   * whenever it is missing or of the wrong type.
   */
  function GetMachineStatusPhase(body: map<string, Value>): (phase: string)
    ensures HasStringPhase(body) ==> phase == body["status"].fields["phase"].s
    ensures !HasStringPhase(body) ==> phase == "unknown"
  {
    match NestedMap(body, ["status"])
    case WrongType => "unknown"
    case Absent => "unknown"
    case Found(status) =>
      match NestedString(status, ["phase"])
      case Found(phase) => phase
      case _ => "unknown"
  }

  /**
   * The platform classification of a provider ID as the
   * PermanentNodeDeletionExpected status: Unknown for an empty ID, False for
   * a bare-metal ID (the node keeps its name), True for any other (cloud).
   */
  function PermanentNodeDeletionExpectation(providerID: string): (status: ConditionStatus)
    ensures status == ConditionUnknown <==> providerID == ""
    ensures status == ConditionFalse <==> |providerID| >= 9 && providerID[..9] == "baremetal"
    ensures status == ConditionTrue <==> providerID != "" && !(|providerID| >= 9 && providerID[..9] == "baremetal")
  {
    if providerID == "" then ConditionUnknown
    else if "baremetal" <= providerID then ConditionFalse
    else ConditionTrue
  }

  /** Some owner reference sets Controller, and sets it to true. */
  predicate ControllerOwned(refs: seq<OwnerRef>)
  {
    exists i :: 0 <= i < |refs| && refs[i].controller == Some(true)
  }

  /** hasControllerOwner: scans the owner references for a controlling one. */
  method HasControllerOwner(refs: seq<OwnerRef>) returns (owned: bool)
    ensures owned == ControllerOwned(refs)
  {
    var i := 0;
    while i < |refs|
      invariant 0 <= i <= |refs|
      invariant forall j :: 0 <= j < i ==> refs[j].controller != Some(true)
    {
      if refs[i].controller.Some? && refs[i].controller.value {
        return true;
      }
      i := i + 1;
    }
    return false;
  }
}
