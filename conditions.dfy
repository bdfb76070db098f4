// The condition tracker: a type-keyed list of status conditions on the
// remediation record, the two set-if-changed writers the controller uses, and
// the one-way latch on Processing.

module Conditions {
  import opened Wrappers
  import opened Errors

  datatype ConditionType = Processing | Succeeded | PermanentNodeDeletionExpected

  datatype ConditionStatus = ConditionTrue | ConditionFalse | ConditionUnknown

  /** A status condition; the transition time kept by the API server is not modelled. */
  datatype Condition = Condition(condType: ConditionType, status: ConditionStatus, reason: string, message: string)

  // Reasons that move Processing and Succeeded.
  const RemediationStarted: string := "RemediationStarted"
  const RemediationTimedOutByNhc: string := "RemediationStoppedByNHC"
  const RemediationFinished: string := "RemediationFinished"
  const RemediationFailed: string := "RemediationFailed"

  // Reasons and messages of PermanentNodeDeletionExpected.
  const MachineDeletionOnCloudProviderReason: string := "MachineDeletionOnCloudProviderCausesNewNodeName"
  const MachineDeletionOnBareMetalProviderReason: string := "MachineDeletionOnBareMetalProviderKeepsNodeName"
  const MachineDeletionOnUndefinedProviderReason: string := "MachineDeletionUndefinedNodeNameExpectation"
  const MachineDeletedOnCloudProviderMessage: string :=
    "Machine will be deleted and the unhealthy node replaced. This is a Cloud cluster provider: the new node is expected to have a new name"
  const MachineDeletedOnBareMetalProviderMessage: string :=
    "Machine will be deleted and the unhealthy node replaced. This is a BareMetal cluster provider: the new node is NOT expected to have a new name"
  const MachineDeletedOnUnknownProviderMessage: string :=
    "Machine will be deleted and the unhealthy node replaced. Unknown cluster provider: no information about the new node's name"

  /** meta.FindStatusCondition: the first condition of the given type. */
  function FindCondition(cs: seq<Condition>, t: ConditionType): (r: Option<Condition>)
    ensures r.None? <==> forall i :: 0 <= i < |cs| ==> cs[i].condType != t
    ensures r.Some? ==> exists i :: 0 <= i < |cs| && cs[i] == r.value && r.value.condType == t &&
                                    forall j :: 0 <= j < i ==> cs[j].condType != t
  {
    if cs == [] then None
    else if cs[0].condType == t then Some(cs[0])
    else
      var r := FindCondition(cs[1..], t);
      assert r.Some? ==> exists i :: 0 <= i < |cs[1..]| && cs[1..][i] == r.value &&
                                     forall j :: 0 <= j < i ==> cs[1..][j].condType != t;
      if r.Some? then
        var i :| 0 <= i < |cs[1..]| && cs[1..][i] == r.value && forall j :: 0 <= j < i ==> cs[1..][j].condType != t;
        assert cs[i + 1] == r.value;
        r
      else r
  }

  /** meta.IsStatusConditionPresentAndEqual: compares type and status only. */
  predicate IsStatusConditionPresentAndEqual(cs: seq<Condition>, t: ConditionType, s: ConditionStatus)
  {
    var c := FindCondition(cs, t);
    c.Some? && c.value.status == s
  }

  /**
   * meta.SetStatusCondition: overwrite the condition of the same type in its
   * place, or append it when there is none.
   */
  function SetStatusCondition(cs: seq<Condition>, c: Condition): (r: seq<Condition>)
    ensures FindCondition(r, c.condType) == Some(c)
    ensures forall t :: t != c.condType ==> FindCondition(r, t) == FindCondition(cs, t)
    ensures |r| == if FindCondition(cs, c.condType).Some? then |cs| else |cs| + 1
  {
    if cs == [] then [c]
    else if cs[0].condType == c.condType then [c] + cs[1..]
    else
      var rest := SetStatusCondition(cs[1..], c);
      assert ([cs[0]] + rest)[1..] == rest;
      assert cs == [cs[0]] + cs[1..];
      [cs[0]] + rest
  }

  /** Processing and Succeeded both present with the given statuses. */
  predicate HasOutcome(cs: seq<Condition>, processing: ConditionStatus, succeeded: ConditionStatus)
  {
    IsStatusConditionPresentAndEqual(cs, Processing, processing) &&
    IsStatusConditionPresentAndEqual(cs, Succeeded, succeeded)
  }

  /** What a set-if-changed writer did: whether it changed the list, and the list after it. */
  datatype Update = Update(changed: bool, conditions: seq<Condition>)

  /** The reason-to-(Processing, Succeeded) table of updateConditions. */
  function ReasonStatuses(reason: string): (r: Option<(ConditionStatus, ConditionStatus)>)
    ensures r.None? <==>
      reason != RemediationStarted && reason != RemediationFinished &&
      reason != RemediationTimedOutByNhc && reason != RemediationFailed
    // only Started keeps the remediation in progress, and only then is the outcome open
    ensures r.Some? ==> (r.value.0 == ConditionTrue <==> reason == RemediationStarted)
    ensures r.Some? ==> (r.value.1 == ConditionUnknown <==> r.value.0 == ConditionTrue)
    // only Finished counts as success
    ensures r.Some? ==> (r.value.1 == ConditionTrue <==> reason == RemediationFinished)
  {
    if reason == RemediationStarted then Some((ConditionTrue, ConditionUnknown))
    else if reason == RemediationFinished then Some((ConditionFalse, ConditionTrue))
    else if reason == RemediationTimedOutByNhc || reason == RemediationFailed then Some((ConditionFalse, ConditionFalse))
    else None
  }

  /**
   * The effect of updateConditions on a condition list: an unknown reason is
   * an error and changes nothing; Started never re-arms a Processing that is
   * already False; and nothing is written when both statuses already match.
   */
  function UpdatedConditions(cs: seq<Condition>, reason: string): (r: Result<Update, Error>)
    ensures r.Failure? <==>
      reason != RemediationStarted && reason != RemediationFinished &&
      reason != RemediationTimedOutByNhc && reason != RemediationFailed
    ensures r.Failure? ==> r.error == UnknownReason(reason)
    ensures r.Success? ==> (r.value.changed <==> r.value.conditions != cs)
    ensures r.Success? ==>
      FindCondition(r.value.conditions, PermanentNodeDeletionExpected) == FindCondition(cs, PermanentNodeDeletionExpected)
    ensures reason == RemediationStarted && IsStatusConditionPresentAndEqual(cs, Processing, ConditionFalse) ==>
      r == Success(Update(false, cs))
    ensures reason == RemediationStarted && !IsStatusConditionPresentAndEqual(cs, Processing, ConditionFalse) ==>
      r.Success? && HasOutcome(r.value.conditions, ConditionTrue, ConditionUnknown)
    ensures reason == RemediationFinished ==>
      r.Success? && HasOutcome(r.value.conditions, ConditionFalse, ConditionTrue)
    ensures reason == RemediationTimedOutByNhc || reason == RemediationFailed ==>
      r.Success? && HasOutcome(r.value.conditions, ConditionFalse, ConditionFalse)
    ensures r.Success? && r.value.changed ==>
      FindCondition(r.value.conditions, Processing).value.reason == reason &&
      FindCondition(r.value.conditions, Succeeded).value.reason == reason
  {
    match ReasonStatuses(reason)
    case None => Failure(UnknownReason(reason))
    case Some((processing, succeeded)) =>
      if processing == ConditionTrue && IsStatusConditionPresentAndEqual(cs, Processing, ConditionFalse) then
        Success(Update(false, cs))
      else if HasOutcome(cs, processing, succeeded) then
        Success(Update(false, cs))
      else
        Success(Update(true, WriteOutcome(cs, processing, succeeded, reason)))
  }

  /** Processing then Succeeded written with the given statuses and the reason, no message. */
  function WriteOutcome(cs: seq<Condition>, processing: ConditionStatus, succeeded: ConditionStatus,
                        reason: string): (r: seq<Condition>)
    ensures HasOutcome(r, processing, succeeded)
    ensures FindCondition(r, PermanentNodeDeletionExpected) == FindCondition(cs, PermanentNodeDeletionExpected)
    ensures FindCondition(r, Processing).value.reason == reason
    ensures FindCondition(r, Succeeded).value.reason == reason
  {
    var cs1 := SetStatusCondition(cs, Condition(Processing, processing, reason, ""));
    SetStatusCondition(cs1, Condition(Succeeded, succeeded, reason, ""))
  }

  /** The reason recorded with each PermanentNodeDeletionExpected status. */
  function ExpectationReason(status: ConditionStatus): string
  {
    match status
    case ConditionTrue => MachineDeletionOnCloudProviderReason
    case ConditionFalse => MachineDeletionOnBareMetalProviderReason
    case ConditionUnknown => MachineDeletionOnUndefinedProviderReason
  }

  /** The message recorded with each PermanentNodeDeletionExpected status. */
  function ExpectationMessage(status: ConditionStatus): string
  {
    match status
    case ConditionTrue => MachineDeletedOnCloudProviderMessage
    case ConditionFalse => MachineDeletedOnBareMetalProviderMessage
    case ConditionUnknown => MachineDeletedOnUnknownProviderMessage
  }

  /** Each expectation status records a reason and a message of its own. */
  lemma ExpectationTextsDistinct(a: ConditionStatus, b: ConditionStatus)
    requires a != b
    ensures ExpectationReason(a) != ExpectationReason(b) && ExpectationMessage(a) != ExpectationMessage(b)
  {
  }

  /**
   * The effect of setPermanentNodeDeletionExpectedCondition: set-if-changed on
   * the status of that one condition, leaving Processing and Succeeded alone.
   */
  function PermanentNodeDeletionExpectedSet(cs: seq<Condition>, status: ConditionStatus): (r: Update)
    ensures IsStatusConditionPresentAndEqual(r.conditions, PermanentNodeDeletionExpected, status)
    ensures r.changed <==> !IsStatusConditionPresentAndEqual(cs, PermanentNodeDeletionExpected, status)
    ensures r.changed <==> r.conditions != cs
    ensures FindCondition(r.conditions, Processing) == FindCondition(cs, Processing)
    ensures FindCondition(r.conditions, Succeeded) == FindCondition(cs, Succeeded)
    ensures r.changed ==>
      FindCondition(r.conditions, PermanentNodeDeletionExpected).value ==
      Condition(PermanentNodeDeletionExpected, status, ExpectationReason(status), ExpectationMessage(status))
  {
    if IsStatusConditionPresentAndEqual(cs, PermanentNodeDeletionExpected, status) then Update(false, cs)
    else
      Update(true, SetStatusCondition(cs, Condition(PermanentNodeDeletionExpected, status,
                                                    ExpectationReason(status), ExpectationMessage(status))))
  }

  /** Set-if-changed: when both statuses already hold, updateConditions writes nothing. */
  lemma UpdateConditionsSetIfChanged(cs: seq<Condition>, reason: string)
    requires ReasonStatuses(reason).Some?
    requires HasOutcome(cs, ReasonStatuses(reason).value.0, ReasonStatuses(reason).value.1)
    ensures UpdatedConditions(cs, reason) == Success(Update(false, cs))
  {
  }

  /** A second identical updateConditions call writes nothing. */
  lemma UpdateConditionsIdempotent(cs: seq<Condition>, reason: string)
    requires UpdatedConditions(cs, reason).Success?
    ensures var next := UpdatedConditions(cs, reason).value.conditions;
            UpdatedConditions(next, reason) == Success(Update(false, next))
  {
  }

  /** A second identical setPermanentNodeDeletionExpectedCondition call writes nothing. */
  lemma ExpectationIdempotent(cs: seq<Condition>, status: ConditionStatus)
    ensures var next := PermanentNodeDeletionExpectedSet(cs, status).conditions;
            PermanentNodeDeletionExpectedSet(next, status) == Update(false, next)
  {
  }

  /** One call of either writer, as the reconciler may issue it during a pass. */
  datatype TrackerCall = Transition(reason: string) | Expectation(status: ConditionStatus)

  /** The list after one writer call; a rejected reason leaves it as it was. */
  function Apply(cs: seq<Condition>, call: TrackerCall): seq<Condition>
  {
    match call
    case Transition(reason) =>
      (match UpdatedConditions(cs, reason) case Success(u) => u.conditions case Failure(_) => cs)
    case Expectation(status) => PermanentNodeDeletionExpectedSet(cs, status).conditions
  }

  /** The list after a sequence of writer calls, in order. */
  function Replay(cs: seq<Condition>, calls: seq<TrackerCall>): seq<Condition>
    decreases |calls|
  {
    if calls == [] then cs else Replay(Apply(cs, calls[0]), calls[1..])
  }

  /**
   * The one-way latch: once Processing is False it stays False whatever
   * writer calls follow, so a finished, failed or stopped remediation is
   * never marked as processing again.
   */
  lemma {:induction false} ProcessingLatch(cs: seq<Condition>, calls: seq<TrackerCall>)
    requires IsStatusConditionPresentAndEqual(cs, Processing, ConditionFalse)
    ensures IsStatusConditionPresentAndEqual(Replay(cs, calls), Processing, ConditionFalse)
    decreases |calls|
  {
    if calls != [] {
      ProcessingLatch(Apply(cs, calls[0]), calls[1..]);
    }
  }
}
