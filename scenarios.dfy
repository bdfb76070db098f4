// Concrete runs of the reconcile pass: a remediation carried from its first
// pass to success, one stuck on a malformed Node annotation, and one stopped
// by the health checker before any lookup.

module Scenarios {
  import opened Wrappers
  import opened Errors
  import opened Conditions
  import opened Resources
  import opened Binding
  import opened MachineFields
  import opened Cluster
  import opened Reconciler
  import opened Properties

  /** A worker Machine owned by its MachineSet, with no providerID. */
  const OwnedMachine: Machine := Machine([OwnerRef("worker-machineset", Some(true))], false, map[])

  /** The Machine once its deletion was requested. */
  const DeletingMachine: Machine := OwnedMachine.(deletionRequested := true)

  /** The conditions after arming. */
  const ArmedConditions: seq<Condition> :=
    [Condition(Processing, ConditionTrue, RemediationStarted, ""),
     Condition(Succeeded, ConditionUnknown, RemediationStarted, "")]

  /** The classification recorded for a Machine without providerID. */
  const UnknownNextName: Condition :=
    Condition(PermanentNodeDeletionExpected, ConditionUnknown, MachineDeletionOnUndefinedProviderReason,
              MachineDeletedOnUnknownProviderMessage)

  /** The conditions after recording that the node's next name is unknown. */
  const ClassifiedConditions: seq<Condition> := ArmedConditions + [UnknownNextName]

  /** The conditions of a remediation that succeeded. */
  const FinishedConditions: seq<Condition> :=
    [Condition(Processing, ConditionFalse, RemediationFinished, ""),
     Condition(Succeeded, ConditionTrue, RemediationFinished, ""),
     UnknownNextName]

  /** A Machine key that formats to a well-formed binding. */
  predicate WellFormedKey(key: NamespacedName)
  {
    '/' !in key.namespace && '/' !in key.name && key.name != ""
  }

  /** The record for the node with the given annotations and conditions, the node pointing at the key, and the Machines. */
  function NodeCluster(node: string, key: NamespacedName, recordAnnotations: map<string, string>, conditions: seq<Condition>,
                   machines: map<NamespacedName, Machine>): State
  {
    State(Some(Record(node, recordAnnotations, false, conditions)),
          map[node := Node(node, Some(map[MachineAnnotationOpenshift := Format(key)]))],
          machines)
  }

  /** The store of the successful run before its n-th pass. */
  function Before(n: nat, node: string, key: NamespacedName): State
  {
    var bound := map[MachineNameNsAnnotation := Format(key)];
    if n == 1 then NodeCluster(node, key, map[], [], map[key := OwnedMachine])
    else if n == 2 then NodeCluster(node, key, map[], ArmedConditions, map[key := OwnedMachine])
    else if n == 3 then NodeCluster(node, key, map[], ClassifiedConditions, map[key := OwnedMachine])
    else if n == 4 then NodeCluster(node, key, bound, ClassifiedConditions, map[key := DeletingMachine])
    else if n == 5 then NodeCluster(node, key, bound, ClassifiedConditions, map[])
    else NodeCluster(node, key, bound, FinishedConditions, map[])
  }

  /** The stores of the run, one per pass. */
  lemma Stores(node: string, key: NamespacedName)
    ensures var bound := map[MachineNameNsAnnotation := Format(key)];
            Before(3, node, key) == NodeCluster(node, key, map[], ClassifiedConditions, map[key := OwnedMachine]) &&
            Before(4, node, key) == NodeCluster(node, key, bound, ClassifiedConditions, map[key := DeletingMachine]) &&
            Before(5, node, key) == NodeCluster(node, key, bound, ClassifiedConditions, map[]) &&
            Before(6, node, key) == NodeCluster(node, key, bound, FinishedConditions, map[])
  {
  }

  /** Arming a record without conditions. */
  lemma ArmingWrites()
    ensures UpdatedConditions([], RemediationStarted) == Success(Update(true, ArmedConditions))
  {
    var c1 := ArmedConditions[0];
    assert SetStatusCondition([], c1) == [c1];
    assert SetStatusCondition([c1], ArmedConditions[1]) == ArmedConditions;
  }

  /** An armed record stays as it is when armed again. */
  lemma ArmedStays()
    ensures UpdatedConditions(ArmedConditions, RemediationStarted) == Success(Update(false, ArmedConditions))
    ensures UpdatedConditions(ClassifiedConditions, RemediationStarted) == Success(Update(false, ClassifiedConditions))
  {
    UpdateConditionsSetIfChanged(ArmedConditions, RemediationStarted);
    UpdateConditionsSetIfChanged(ClassifiedConditions, RemediationStarted);
  }

  /** Recording that the node's next name is unknown. */
  lemma ClassifyingWrites()
    ensures PermanentNodeDeletionExpectedSet(ArmedConditions, ConditionUnknown) == Update(true, ClassifiedConditions)
    ensures IsStatusConditionPresentAndEqual(ClassifiedConditions, PermanentNodeDeletionExpected, ConditionUnknown)
  {
    assert SetStatusCondition([ArmedConditions[1]], UnknownNextName) == [ArmedConditions[1], UnknownNextName];
  }

  /** Marking the remediation as succeeded: the two writes of the outcome. */
  lemma FinishingOutcome()
    ensures WriteOutcome(ClassifiedConditions, ConditionFalse, ConditionTrue, RemediationFinished) == FinishedConditions
  {
    var f1 := FinishedConditions[0];
    assert SetStatusCondition(ClassifiedConditions, f1) == [f1] + ClassifiedConditions[1..];
    assert SetStatusCondition([f1] + ClassifiedConditions[1..], FinishedConditions[1]) == FinishedConditions by {
      assert SetStatusCondition(ClassifiedConditions[1..], FinishedConditions[1]) == FinishedConditions[1..];
    }
  }

  /** Marking the remediation as succeeded. */
  lemma FinishingWrites()
    ensures UpdatedConditions(ClassifiedConditions, RemediationFinished) == Success(Update(true, FinishedConditions))
  {
    FinishingOutcome();
    assert FinishedConditions != ClassifiedConditions by {
      assert FinishedConditions[0] != ClassifiedConditions[0];
    }
  }

  /** Without a binding, getMachine reads the key off the Node and finds the Machine. */
  lemma ColdLookup(n: nat, node: string, key: NamespacedName)
    requires n == 2 || n == 3
    requires WellFormedKey(key)
    ensures LookupMachine(Before(n, node, key), NoFaults, Before(n, node, key).record.value) ==
            MachineLookup(Success(OwnedMachine), key, true, [GetNode(node), Call.GetMachine(key)])
  {
    FormatThenExtract(key, node);
  }

  /** With the binding saved, getMachine follows it and reads no Node. */
  lemma WarmLookup(s: State, rec: Record, key: NamespacedName)
    requires WellFormedKey(key) && rec.annotations == map[MachineNameNsAnnotation := Format(key)]
    ensures LookupMachine(s, NoFaults, rec) == MachineLookup(FetchMachine(s, NoFaults, key), key, false, [Call.GetMachine(key)])
  {
    FormatThenExtract(key, rec.name);
  }

  /** Pass 1 arms the remediation. */
  lemma FirstPassArms(node: string, key: NamespacedName)
    ensures Pass(Before(1, node, key), NoFaults) == Outcome(Before(2, node, key), RetrySoon, None, [GetRecord, UpdateStatus])
  {
    ArmingWrites();
    UnarmedPassArms(Before(1, node, key), NoFaults);
  }

  /** Pass 2 records the platform classification: no providerID, so the node's next name is unknown. */
  lemma SecondPassClassifies(node: string, key: NamespacedName)
    requires WellFormedKey(key)
    ensures Pass(Before(2, node, key), NoFaults) ==
            Outcome(Before(3, node, key), RetrySoon, None, [GetRecord, GetNode(node), Call.GetMachine(key), UpdateStatus])
  {
    var s := Before(2, node, key);
    var rec := s.record.value;
    ArmedStays();
    ClassifyingWrites();
    ColdLookup(2, node, key);
    assert GetMachineProviderID(OwnedMachine.body) == Success("");
    ClassificationRecordedFirst(s, NoFaults, OwnedMachine);
    FourCalls(GetRecord, GetNode(node), Call.GetMachine(key), UpdateStatus);
    assert s.(record := Some(rec.(conditions := ClassifiedConditions))) == Before(3, node, key);
  }

  /** The stop annotation and the binding annotation are different keys. */
  lemma BindingIsNoStopSignal()
    ensures NhcTimedOutAnnotation != MachineNameNsAnnotation
  {
    assert |NhcTimedOutAnnotation| != |MachineNameNsAnnotation|;
  }

  /** A record carrying the classification, with no stop signal, is armed and classified for both Machines of the run. */
  lemma ClassifiedRecordReady(rec: Record)
    requires rec.conditions == ClassifiedConditions && !rec.deletionRequested && NhcTimedOutAnnotation !in rec.annotations
    ensures Armed(rec) && Classified(rec, OwnedMachine) && Classified(rec, DeletingMachine)
  {
    ArmedStays();
    ClassifyingWrites();
    assert GetMachineProviderID(OwnedMachine.body) == Success("");
  }

  lemma SixCalls(a: Call, b: Call, c: Call, d: Call, e: Call, g: Call)
    ensures [a] + [b, c] + [d] + [e, g] == [a, b, c, d, e, g]
  {
  }

  /** Writing a key of a one-entry map again leaves one entry. */
  lemma Rewritten<K, V>(k: K, v: V, w: V)
    ensures map[k := v][k := w] == map[k := w]
  {
  }

  /** Pass 3 saves the binding and deletes the Machine: the gate is open. */
  lemma ThirdPassDeletes(node: string, key: NamespacedName)
    requires WellFormedKey(key)
    ensures Pass(Before(3, node, key), NoFaults) ==
            Outcome(Before(4, node, key), RequeueNow, None,
                    [GetRecord, GetNode(node), Call.GetMachine(key), UpdateRecord, DeleteMachine(key), UpdateStatus])
  {
    Stores(node, key);
    var s := NodeCluster(node, key, map[], ClassifiedConditions, map[key := OwnedMachine]);
    var rec := s.record.value;
    ClassifiedRecordReady(rec);
    ColdLookup(3, node, key);
    assert ControllerOwned(OwnedMachine.ownerRefs) by {
      assert OwnedMachine.ownerRefs[0].controller == Some(true);
    }
    DeleteWhenGateOpen(s, NoFaults, OwnedMachine);
    SixCalls(GetRecord, GetNode(node), Call.GetMachine(key), UpdateRecord, DeleteMachine(key), UpdateStatus);
    var save := SaveBinding(s, NoFaults, rec, key);
    var bound := map[MachineNameNsAnnotation := Format(key)];
    assert save.mdr == rec.(annotations := bound) by {
      assert rec.annotations == map[];
      assert map[][MachineNameNsAnnotation := Format(key)] == bound;
    }
    assert MarkedForDeletion(s.machines, key) == map[key := DeletingMachine] by {
      Rewritten(key, OwnedMachine, DeletingMachine);
    }
    assert s.(record := Some(rec.(annotations := bound)), machines := map[key := DeletingMachine]) ==
           NodeCluster(node, key, bound, ClassifiedConditions, map[key := DeletingMachine]);
  }

  /** Pass 4 finds the Machine being deleted and polls again after 30 seconds, writing nothing. */
  lemma FourthPassPolls(node: string, key: NamespacedName)
    requires WellFormedKey(key)
    ensures Pass(Before(4, node, key), NoFaults) ==
            Outcome(Before(4, node, key), Poll, None, [GetRecord, Call.GetMachine(key), UpdateStatus])
  {
    var s := Before(4, node, key);
    var rec := s.record.value;
    BindingIsNoStopSignal();
    ClassifiedRecordReady(rec);
    WarmLookup(s, rec, key);
    DeletionInFlightPolls(s, NoFaults, DeletingMachine);
    ThreeCalls(GetRecord, Call.GetMachine(key), UpdateStatus);
  }

  /** Pass 5 finds the bound Machine gone and marks the remediation as succeeded. */
  lemma FifthPassFinishes(node: string, key: NamespacedName)
    requires WellFormedKey(key)
    ensures Pass(Before(5, node, key), NoFaults) ==
            Outcome(Before(6, node, key), Done, None, [GetRecord, Call.GetMachine(key), UpdateStatus])
  {
    Stores(node, key);
    var bound := map[MachineNameNsAnnotation := Format(key)];
    var s := NodeCluster(node, key, bound, ClassifiedConditions, map[]);
    var rec := s.record.value;
    BindingIsNoStopSignal();
    ClassifiedRecordReady(rec);
    FinishingWrites();
    WarmPathMissingMachineFinishes(s, key);
    assert s.(record := Some(rec.(conditions := FinishedConditions))) == NodeCluster(node, key, bound, FinishedConditions, map[]);
  }

  /** The store after n passes in a row, none of them failing. */
  function Run(s: State, n: nat): State
    decreases n
  {
    if n == 0 then s else Run(Pass(s, NoFaults).state, n - 1)
  }

  /** A store that a pass leaves as it is stays so for any number of passes. */
  lemma {:induction false} RunAtFixedPoint(s: State, k: nat)
    requires Pass(s, NoFaults).state == s
    ensures Run(s, k) == s
  {
    if k > 0 {
      RunAtFixedPoint(s, k - 1);
    }
  }

  /** Three passes that lead from s1 through s2 and s3 to a store s4 that passes leave as it is. */
  lemma {:induction false} RunThrough(s1: State, s2: State, s3: State, s4: State, k: nat)
    requires Pass(s1, NoFaults).state == s2 && Pass(s2, NoFaults).state == s3 && Pass(s3, NoFaults).state == s4
    requires Pass(s4, NoFaults).state == s4
    ensures Run(s1, 3 + k) == s4
  {
    RunAtFixedPoint(s4, k);
    assert Run(s3, 1 + k) == Run(s4, k);
    assert Run(s2, 2 + k) == Run(s3, 1 + k);
  }

  /**
   * From an unarmed record for a Node whose Machine is owned by a MachineSet,
   * three passes arm, classify and delete; the passes then poll until the
   * platform removes the Machine, and the next pass marks the remediation as
   * succeeded, after which nothing changes.
   */
  lemma RemediationRunsToSuccess(node: string, key: NamespacedName, polls: nat, after: nat)
    requires WellFormedKey(key)
    ensures Run(Before(1, node, key), 3 + polls) == Before(4, node, key)
    ensures Before(4, node, key).(machines := map[]) == Before(5, node, key)
    ensures Run(Before(5, node, key), 1 + after) == Before(6, node, key)
  {
    FirstPassArms(node, key);
    SecondPassClassifies(node, key);
    ThirdPassDeletes(node, key);
    FourthPassPolls(node, key);
    RunThrough(Before(1, node, key), Before(2, node, key), Before(3, node, key), Before(4, node, key), polls);
    FifthPassFinishes(node, key);
    QuietPassIsFixedPoint(Before(5, node, key));
    RunAtFixedPoint(Before(6, node, key), after);
    Stores(node, key);
  }

  /** A record for the node, with the given conditions, whose Node carries a machine annotation of the given value. */
  function Misannotated(node: string, value: string, conditions: seq<Condition>): State
  {
    State(Some(Record(node, map[], false, conditions)),
          map[node := Node(node, Some(map[MachineAnnotationOpenshift := value]))],
          map[])
  }

  /** The first pass arms the record whatever the Node's annotation holds. */
  lemma MisannotatedPassArms(node: string, value: string)
    ensures Pass(Misannotated(node, value, []), NoFaults) ==
            Outcome(Misannotated(node, value, ArmedConditions), RetrySoon, None, [GetRecord, UpdateStatus])
  {
    ArmingWrites();
    UnarmedPassArms(Misannotated(node, value, []), NoFaults);
  }

  /**
   * A Node machine annotation without a "/" cannot be resolved: once armed,
   * every pass fails with InvalidValue naming the Node, writes nothing and is
   * retried, so the remediation never leaves Processing.
   */
  lemma MalformedNodeAnnotationRetries(node: string, value: string, k: nat)
    requires '/' !in value && value != ""
    ensures Pass(Misannotated(node, value, ArmedConditions), NoFaults) ==
            Outcome(Misannotated(node, value, ArmedConditions), Done, Some(InvalidValue(node)), [GetRecord, GetNode(node), UpdateStatus])
    ensures Run(Misannotated(node, value, []), 1 + k) == Misannotated(node, value, ArmedConditions)
  {
    var s := Misannotated(node, value, ArmedConditions);
    ArmedStays();
    assert multiset(value)['/'] == 0;
    assert LookupMachine(s, NoFaults, s.record.value) ==
           MachineLookup(Failure(InvalidValue(node)), NamespacedName("", ""), false, [GetNode(node)]);
    UnresolvedMachineRetries(s, NoFaults);
    ThreeCalls(GetRecord, GetNode(node), UpdateStatus);
    MisannotatedPassArms(node, value);
    RunAtFixedPoint(s, k);
  }

  /**
   * A stop signal on the record from the first pass ends the remediation at
   * once as failed (Processing=False, Succeeded=False), without reading the
   * Node or the Machine.
   */
  lemma StoppedBeforeAnyLookup(node: string, key: NamespacedName)
    ensures var s := NodeCluster(node, key, map[NhcTimedOutAnnotation := ""], [], map[key := OwnedMachine]);
            var p := Pass(s, NoFaults);
            p.directive == Done && p.err.None? && p.calls == [GetRecord, UpdateStatus] &&
            p.state.machines == s.machines && p.state.record.Some? &&
            HasOutcome(p.state.record.value.conditions, ConditionFalse, ConditionFalse)
  {
    StopSignalTerminates(NodeCluster(node, key, map[NhcTimedOutAnnotation := ""], [], map[key := OwnedMachine]), NoFaults);
  }
}
