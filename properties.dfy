// What one reconcile pass guarantees, stated over the pure definition of the
// pass (Reconciler.Pass), which Reconciler.Reconcile is proved to follow:
// the deletion gate, the write-once binding, the stop signal, the outcomes
// of a missing Machine, the poll while a deletion is in flight, the
// providerID stall and the Processing latch.

module Properties {
  import opened Wrappers
  import opened Errors
  import opened Conditions
  import opened Resources
  import opened Binding
  import opened MachineFields
  import opened Cluster
  import opened Reconciler

  /** The record neither carries the stop signal nor needs re-arming: the pass goes on to the Machine. */
  predicate Armed(rec: Record)
  {
    !IsTimedOutByNhc(rec) && UpdatedConditions(rec.conditions, RemediationStarted) == Success(Update(false, rec.conditions))
  }

  /** The Machine's platform classification is readable and already recorded on the conditions. */
  predicate Classified(rec: Record, m: Machine)
  {
    GetMachineProviderID(m.body).Success? &&
    IsStatusConditionPresentAndEqual(rec.conditions, PermanentNodeDeletionExpected,
                                     PermanentNodeDeletionExpectation(GetMachineProviderID(m.body).value))
  }

  /** Within the gate, a delete is issued only for a live, controller-owned Machine, after the binding is saved. */
  lemma GateDeletes(s: State, f: Faults, mdr: Record, key: NamespacedName, m: Machine, k: NamespacedName)
    requires DeleteMachine(k) in Gate(s, f, mdr, key, m).calls
    ensures k == key && !m.deletionRequested && ControllerOwned(m.ownerRefs)
    ensures SaveBinding(s, f, mdr, key).err.None?
    ensures var g := Gate(s, f, mdr, key, m);
            MachineNameNsAnnotation in g.mdr.annotations &&
            (MachineNameNsAnnotation !in mdr.annotations ==> g.mdr.annotations[MachineNameNsAnnotation] == Format(key))
    ensures s.record.Some? && s.record.value.annotations == mdr.annotations ==>
      var g := Gate(s, f, mdr, key, m);
      g.state.record.Some? && g.state.record.value.annotations == g.mdr.annotations
  {
    var save := SaveBinding(s, f, mdr, key);
    assert save.calls == [] || save.calls == [UpdateRecord];
  }

  /** The stages a delete passes through, from the whole pass down to the gate. */
  lemma DeleteReachesGate(s: State, f: Faults, k: NamespacedName)
    requires DeleteMachine(k) in Pass(s, f).calls
    ensures GetRecordOp(s, f).Success?
    ensures var rec := GetRecordOp(s, f).value;
            var l := LookupMachine(s, f, rec);
            Armed(rec) && l.machine.Success? &&
            Act(s, f, rec, l.key, l.machine.value) == Gate(s, f, rec, l.key, l.machine.value) &&
            DeleteMachine(k) in Gate(s, f, rec, l.key, l.machine.value).calls &&
            Body(s, f, rec).state == Gate(s, f, rec, l.key, l.machine.value).state &&
            Body(s, f, rec).mdr == Gate(s, f, rec, l.key, l.machine.value).mdr
  {
    if GetRecordOp(s, f).Success? {
      var rec := GetRecordOp(s, f).value;
      var b := Body(s, f, rec);
      assert Pass(s, f).calls == [GetRecord] + b.calls + [UpdateStatus];
      assert DeleteMachine(k) in b.calls;
      var l := LookupMachine(s, f, rec);
      var rest := Resolved(s, f, rec, l.machine, l.key, l.mustExist);
      assert b == rest.(calls := l.calls + rest.calls);
      assert DeleteMachine(k) in rest.calls;
    }
  }

  /**
   * The deletion gate: a pass deletes a Machine only when the record exists,
   * carries no stop signal and needs no re-arming, the lookup found that very
   * Machine live and controller-owned with its classification already
   * recorded, and the binding is on the stored record by then.
   */
  lemma DeleteRequiresGate(s: State, f: Faults, k: NamespacedName)
    requires DeleteMachine(k) in Pass(s, f).calls
    ensures s.record.Some? && Armed(s.record.value)
    ensures LookupMachine(s, f, s.record.value).key == k
    ensures k in s.machines && LookupMachine(s, f, s.record.value).machine == Success(s.machines[k])
    ensures !s.machines[k].deletionRequested && ControllerOwned(s.machines[k].ownerRefs)
    ensures Classified(s.record.value, s.machines[k])
    ensures var after := Pass(s, f).state.record;
            after.Some? && MachineNameNsAnnotation in after.value.annotations &&
            (MachineNameNsAnnotation !in s.record.value.annotations ==>
               after.value.annotations[MachineNameNsAnnotation] == Format(k))
  {
    DeleteReachesGate(s, f, k);
    var rec := s.record.value;
    var l := LookupMachine(s, f, rec);
    var m := l.machine.value;
    GateDeletes(s, f, rec, l.key, m, k);
  }

  /** A Machine without a controlling owner reference is never deleted. */
  lemma UnownedMachineNeverDeleted(s: State, f: Faults, k: NamespacedName)
    requires k in s.machines && !ControllerOwned(s.machines[k].ownerRefs)
    ensures DeleteMachine(k) !in Pass(s, f).calls
  {
    if DeleteMachine(k) in Pass(s, f).calls {
      DeleteRequiresGate(s, f, k);
    }
  }

  /** The mark the API server puts on a deleted Machine. */
  function MarkedForDeletion(machines: map<NamespacedName, Machine>, k: NamespacedName): map<NamespacedName, Machine>
    requires k in machines
  {
    machines[k := machines[k].(deletionRequested := true)]
  }

  /**
   * A stage that went from s to after with the given calls wrote at most the
   * binding on the record and the deletion mark on the Machine it deleted.
   */
  predicate WritesAtMost(s: State, rec: Record, key: NamespacedName, after: State, calls: seq<Call>)
  {
    after.nodes == s.nodes &&
    (after.record == s.record ||
     (MachineNameNsAnnotation !in rec.annotations &&
      after.record == Some(rec.(annotations := rec.annotations[MachineNameNsAnnotation := Format(key)])))) &&
    (after.machines == s.machines ||
     (DeleteMachine(key) in calls && key in s.machines && after.machines == MarkedForDeletion(s.machines, key)))
  }

  /** What the gate writes: at most the binding on the record, and at most the deletion mark on its Machine. */
  lemma GateWrites(s: State, f: Faults, mdr: Record, key: NamespacedName, m: Machine)
    requires s.record == Some(mdr)
    ensures var g := Gate(s, f, mdr, key, m);
            g.mdr.conditions == mdr.conditions && WritesAtMost(s, mdr, key, g.state, g.calls)
  {
    var save := SaveBinding(s, f, mdr, key);
    assert save.state.machines == s.machines && save.state.nodes == s.nodes;
    assert save.mdr.conditions == mdr.conditions;
  }

  /** What the stages after the lookup write. */
  lemma ResolvedWrites(s: State, f: Faults, rec: Record, machine: Result<Machine, Error>, key: NamespacedName,
                       mustExist: bool)
    requires s.record == Some(rec)
    ensures var r := Resolved(s, f, rec, machine, key, mustExist);
            WritesAtMost(s, rec, key, r.state, r.calls)
  {
    if machine.Success? {
      var m := machine.value;
      if Act(s, f, rec, key, m) == Gate(s, f, rec, key, m) {
        GateWrites(s, f, rec, key, m);
      }
    }
  }

  /** What the body writes to the store, in terms of the key its lookup resolved. */
  lemma BodyWrites(s: State, f: Faults, rec: Record)
    requires s.record == Some(rec)
    ensures var b := Body(s, f, rec);
            WritesAtMost(s, rec, LookupMachine(s, f, rec).key, b.state, b.calls)
  {
    var l := LookupMachine(s, f, rec);
    if Armed(rec) {
      var rest := Resolved(s, f, rec, l.machine, l.key, l.mustExist);
      assert Body(s, f, rec) == rest.(calls := l.calls + rest.calls);
      ResolvedWrites(s, f, rec, l.machine, l.key, l.mustExist);
      assert DeleteMachine(l.key) in rest.calls ==> DeleteMachine(l.key) in l.calls + rest.calls;
    }
  }

  /**
   * saveMachineNameNs is write-once over a whole pass: the stored record keeps
   * its identity, and its annotations either stay as they were or gain the
   * binding key, which it did not carry before; nothing else is added or
   * overwritten. An absent record stays absent.
   */
  lemma BindingWriteOnce(s: State, f: Faults)
    ensures s.record.None? ==> Pass(s, f).state.record.None?
    ensures s.record.Some? ==>
      var before := s.record.value;
      var after := Pass(s, f).state.record;
      after.Some? && after.value.name == before.name && after.value.deletionRequested == before.deletionRequested &&
      (after.value.annotations == before.annotations ||
       (MachineNameNsAnnotation !in before.annotations && MachineNameNsAnnotation in after.value.annotations &&
        after.value.annotations == before.annotations[MachineNameNsAnnotation := after.value.annotations[MachineNameNsAnnotation]]))
  {
    if GetRecordOp(s, f).Success? {
      var rec := s.record.value;
      var b := Body(s, f, rec);
      BodyWrites(s, f, rec);
      StatusWriteKeepsMetadata(b.state, f, b.mdr.conditions);
      assert Pass(s, f).state == UpdateStatusOp(b.state, f, b.mdr.conditions).state;
    }
  }

  /** The status write changes the conditions of the stored record and nothing of its metadata. */
  lemma StatusWriteKeepsMetadata(s: State, f: Faults, conditions: seq<Condition>)
    ensures var after := UpdateStatusOp(s, f, conditions).state.record;
            after.Some? == s.record.Some? &&
            (after.Some? ==> after.value.(conditions := s.record.value.conditions) == s.record.value)
  {
  }

  /**
   * Nothing else changes: a pass never touches a Node, and it leaves the
   * Machines as they were except for the deletion mark on a Machine it
   * issued a delete for.
   */
  lemma OnlyTheDeletedMachineChanges(s: State, f: Faults)
    ensures Pass(s, f).state.nodes == s.nodes
    ensures var after := Pass(s, f).state.machines;
            after == s.machines ||
            exists k :: k in s.machines && DeleteMachine(k) in Pass(s, f).calls && after == MarkedForDeletion(s.machines, k)
  {
    if GetRecordOp(s, f).Success? {
      var rec := s.record.value;
      BodyWrites(s, f, rec);
      var key := LookupMachine(s, f, rec).key;
      var b := Body(s, f, rec);
      assert Pass(s, f).calls == [GetRecord] + b.calls + [UpdateStatus];
      if b.state.machines != s.machines {
        assert DeleteMachine(key) in Pass(s, f).calls;
      }
    }
  }

  /**
   * The stop signal: a record carrying the health checker's timed-out
   * annotation (and not itself being deleted) makes the pass write
   * Processing=False and Succeeded=False and return with nothing else read
   * or written, and no requeue when the status write goes through.
   */
  lemma StopSignalTerminates(s: State, f: Faults)
    requires GetRecordOp(s, f).Success? && IsTimedOutByNhc(s.record.value)
    ensures var p := Pass(s, f);
            p.calls == [GetRecord, UpdateStatus] && p.state.nodes == s.nodes && p.state.machines == s.machines
    ensures f.updateStatus.None? ==>
      var p := Pass(s, f);
      p.directive == Done && p.err.None? && p.state.record.Some? &&
      HasOutcome(p.state.record.value.conditions, ConditionFalse, ConditionFalse)
  {
    var rec := s.record.value;
    assert Body(s, f, rec) == Step(ApplyReason(rec, RemediationTimedOutByNhc).0, s, Done, None, []);
  }

  lemma Regrouped(first: Call, lookup: seq<Call>, save: seq<Call>, delete: Call, last: Call)
    ensures [first] + (lookup + (save + [delete])) + [last] == [first] + lookup + save + [delete, last]
  {
  }

  lemma ThreeCalls(a: Call, b: Call, c: Call)
    ensures [a] + [b] + [c] == [a, b, c]
  {
  }

  lemma FourCalls(a: Call, b: Call, c: Call, d: Call)
    ensures [a] + [b, c] + [d] == [a, b, c, d]
  {
  }

  /** A Machine that is not there ends the pass with the given outcome and nothing else written. */
  lemma MissingMachineEnds(s: State, f: Faults, rec: Record, reason: string, processing: ConditionStatus,
                           succeeded: ConditionStatus)
    requires GetRecordOp(s, f) == Success(rec) && Armed(rec) && f.updateStatus.None?
    requires var l := LookupMachine(s, f, rec);
             l.machine == Failure(Api(NotFound)) && reason == (if l.mustExist then RemediationFailed else RemediationFinished)
    requires ReasonStatuses(reason) == Some((processing, succeeded))
    ensures var p := Pass(s, f);
            p.directive == Done && p.err.None? &&
            p.calls == [GetRecord] + LookupMachine(s, f, rec).calls + [UpdateStatus] &&
            p.state == s.(record := Some(rec.(conditions := UpdatedConditions(rec.conditions, reason).value.conditions))) &&
            HasOutcome(p.state.record.value.conditions, processing, succeeded)
  {
    MissingMachineBody(s, f, rec, reason, processing, succeeded);
  }

  lemma MissingMachineBody(s: State, f: Faults, rec: Record, reason: string, processing: ConditionStatus,
                           succeeded: ConditionStatus)
    requires Armed(rec)
    requires var l := LookupMachine(s, f, rec);
             l.machine == Failure(Api(NotFound)) && reason == (if l.mustExist then RemediationFailed else RemediationFinished)
    requires ReasonStatuses(reason) == Some((processing, succeeded))
    ensures UpdatedConditions(rec.conditions, reason).Success?
    ensures Body(s, f, rec) ==
      Step(rec.(conditions := UpdatedConditions(rec.conditions, reason).value.conditions), s, Done, None,
           LookupMachine(s, f, rec).calls)
  {
    var l := LookupMachine(s, f, rec);
    var rest := Resolved(s, f, rec, l.machine, l.key, l.mustExist);
    assert rest == Step(ApplyReason(rec, reason).0, s, Done, None, []);
  }

  /**
   * Cold path: with no binding on the record the Machine comes from the
   * Node's annotation and must exist; when it does not, the remediation
   * fails (Processing=False, Succeeded=False).
   */
  lemma ColdPathMissingMachineFails(s: State, k: NamespacedName)
    requires s.record.Some? && Armed(s.record.value)
    requires MachineNameNsAnnotation !in s.record.value.annotations
    requires s.record.value.name in s.nodes && '/' !in k.namespace && '/' !in k.name
    requires var node := s.nodes[s.record.value.name];
             node.annotations.Some? && MachineAnnotationOpenshift in node.annotations.value &&
             node.annotations.value[MachineAnnotationOpenshift] == Format(k)
    requires k !in s.machines
    ensures var p := Pass(s, NoFaults);
            p.directive == Done && p.err.None? && p.state.machines == s.machines &&
            p.calls == [GetRecord, GetNode(s.record.value.name), Call.GetMachine(k), UpdateStatus] &&
            p.state.record.Some? && HasOutcome(p.state.record.value.conditions, ConditionFalse, ConditionFalse) &&
            p.state == s.(record := Some(s.record.value.(conditions :=
              UpdatedConditions(s.record.value.conditions, RemediationFailed).value.conditions)))
  {
    var rec := s.record.value;
    FormatThenExtract(k, rec.name);
    assert MachineNameNsFromNode(s.nodes[rec.name]) == Success(k);
    var l := LookupMachine(s, NoFaults, rec);
    assert l == MachineLookup(Failure(Api(NotFound)), k, true, [GetNode(rec.name), Call.GetMachine(k)]);
    MissingMachineEnds(s, NoFaults, rec, RemediationFailed, ConditionFalse, ConditionFalse);
    FourCalls(GetRecord, GetNode(rec.name), Call.GetMachine(k), UpdateStatus);
  }

  /**
   * Warm path: once the record is bound to a Machine, a Machine that is gone
   * means the deletion went through, and the remediation succeeds
   * (Processing=False, Succeeded=True).
   */
  lemma WarmPathMissingMachineFinishes(s: State, k: NamespacedName)
    requires s.record.Some? && Armed(s.record.value)
    requires '/' !in k.namespace && '/' !in k.name && k.name != ""
    requires MachineNameNsAnnotation in s.record.value.annotations
    requires s.record.value.annotations[MachineNameNsAnnotation] == Format(k)
    requires k !in s.machines
    ensures var p := Pass(s, NoFaults);
            p.directive == Done && p.err.None? && p.state.machines == s.machines &&
            p.calls == [GetRecord, Call.GetMachine(k), UpdateStatus] &&
            p.state.record.Some? && HasOutcome(p.state.record.value.conditions, ConditionFalse, ConditionTrue) &&
            p.state == s.(record := Some(s.record.value.(conditions :=
              UpdatedConditions(s.record.value.conditions, RemediationFinished).value.conditions)))
  {
    var rec := s.record.value;
    FormatThenExtract(k, rec.name);
    assert MachineNameNsFromRemediation(rec.annotations, rec.name) == Success(k);
    var l := LookupMachine(s, NoFaults, rec);
    assert l == MachineLookup(Failure(Api(NotFound)), k, false, [Call.GetMachine(k)]);
    MissingMachineEnds(s, NoFaults, rec, RemediationFinished, ConditionFalse, ConditionTrue);
    ThreeCalls(GetRecord, Call.GetMachine(k), UpdateStatus);
  }

  /**
   * A Node that is not there is read as a missing Machine that need not
   * exist: with no binding on the record, the remediation is marked as
   * succeeded (Processing=False, Succeeded=True).
   */
  lemma MissingNodeFinishes(s: State)
    requires s.record.Some? && Armed(s.record.value)
    requires MachineNameNsAnnotation !in s.record.value.annotations && s.record.value.name !in s.nodes
    ensures var p := Pass(s, NoFaults);
            p.directive == Done && p.err.None? && p.state.machines == s.machines &&
            p.calls == [GetRecord, GetNode(s.record.value.name), UpdateStatus] &&
            p.state.record.Some? && HasOutcome(p.state.record.value.conditions, ConditionFalse, ConditionTrue) &&
            p.state == s.(record := Some(s.record.value.(conditions :=
              UpdatedConditions(s.record.value.conditions, RemediationFinished).value.conditions)))
  {
    var rec := s.record.value;
    var l := LookupMachine(s, NoFaults, rec);
    assert l == MachineLookup(Failure(Api(NotFound)), NamespacedName("", ""), false, [GetNode(rec.name)]);
    MissingMachineEnds(s, NoFaults, rec, RemediationFinished, ConditionFalse, ConditionTrue);
    ThreeCalls(GetRecord, GetNode(rec.name), UpdateStatus);
  }

  /**
   * A Machine that cannot be resolved for any reason but absence ends the
   * pass with that error and leaves the store as it was: the pass is retried
   * with backoff, and the remediation stays in Processing.
   */
  lemma UnresolvedMachineRetries(s: State, f: Faults)
    requires GetRecordOp(s, f).Success? && Armed(s.record.value) && f.updateStatus.None?
    requires var l := LookupMachine(s, f, s.record.value); l.machine.Failure? && !IsNotFound(l.machine.error)
    ensures var l := LookupMachine(s, f, s.record.value);
            Pass(s, f) == Outcome(s, Done, Some(l.machine.error), [GetRecord] + l.calls + [UpdateStatus])
  {
    var rec := s.record.value;
    var l := LookupMachine(s, f, rec);
    assert Body(s, f, rec) == Step(rec, s, Done, Some(l.machine.error), l.calls + []);
    assert l.calls + [] == l.calls;
    assert rec.(conditions := rec.conditions) == rec;
  }

  /** A pass whose lookup found the Machine: the flushed outcome of acting on it. */
  lemma FoundMachinePass(s: State, f: Faults, m: Machine)
    requires GetRecordOp(s, f).Success? && Armed(s.record.value)
    requires LookupMachine(s, f, s.record.value).machine == Success(m)
    ensures var rec := s.record.value;
            var l := LookupMachine(s, f, rec);
            var a := Act(s, f, rec, l.key, m);
            var w := UpdateStatusOp(a.state, f, a.mdr.conditions);
            Pass(s, f) == Outcome(w.state, Flush(a.directive, a.err, w.err).0, Flush(a.directive, a.err, w.err).1,
                                  [GetRecord] + (l.calls + a.calls) + [UpdateStatus])
  {
    var rec := s.record.value;
    var l := LookupMachine(s, f, rec);
    var rest := Resolved(s, f, rec, l.machine, l.key, l.mustExist);
    assert Body(s, f, rec) == rest.(calls := l.calls + rest.calls);
  }

  /**
   * A Machine whose deletion is already in flight is polled every thirty
   * seconds: no delete is issued and nothing is written.
   */
  lemma DeletionInFlightPolls(s: State, f: Faults, m: Machine)
    requires GetRecordOp(s, f).Success? && Armed(s.record.value) && f.updateStatus.None?
    requires LookupMachine(s, f, s.record.value).machine == Success(m)
    requires m.deletionRequested && Classified(s.record.value, m)
    ensures var p := Pass(s, f);
            p.directive == Poll && p.err.None? && p.state == s &&
            p.calls == [GetRecord] + LookupMachine(s, f, s.record.value).calls + [UpdateStatus]
  {
    var rec := s.record.value;
    var l := LookupMachine(s, f, rec);
    FoundMachinePass(s, f, m);
    assert Act(s, f, rec, l.key, m) == Step(rec, s, Poll, None, []);
    assert l.calls + [] == l.calls;
    assert rec.(conditions := rec.conditions) == rec;
  }

  /**
   * A providerID of the wrong type stalls the pass: it ends with neither an
   * error nor a requeue, and nothing is written.
   */
  lemma ProviderIdErrorStalls(s: State, f: Faults, m: Machine)
    requires GetRecordOp(s, f).Success? && Armed(s.record.value) && f.updateStatus.None?
    requires LookupMachine(s, f, s.record.value).machine == Success(m)
    requires GetMachineProviderID(m.body).Failure?
    ensures var p := Pass(s, f);
            p.directive == Done && p.err.None? && p.state == s &&
            p.calls == [GetRecord] + LookupMachine(s, f, s.record.value).calls + [UpdateStatus]
  {
    var rec := s.record.value;
    var l := LookupMachine(s, f, rec);
    FoundMachinePass(s, f, m);
    assert Act(s, f, rec, l.key, m) == Step(rec, s, Done, None, []);
    assert l.calls + [] == l.calls;
    assert rec.(conditions := rec.conditions) == rec;
  }

  /**
   * The platform classification is recorded before anything else happens to
   * the Machine: a pass that finds it unrecorded writes it and asks to be
   * requeued after a second, without touching the Machine.
   */
  lemma ClassificationRecordedFirst(s: State, f: Faults, m: Machine)
    requires GetRecordOp(s, f).Success? && Armed(s.record.value) && f.updateStatus.None?
    requires LookupMachine(s, f, s.record.value).machine == Success(m)
    requires GetMachineProviderID(m.body).Success? && !Classified(s.record.value, m)
    ensures var p := Pass(s, f);
            var status := PermanentNodeDeletionExpectation(GetMachineProviderID(m.body).value);
            var classified := PermanentNodeDeletionExpectedSet(s.record.value.conditions, status).conditions;
            p.directive == RetrySoon && p.err.None? &&
            p.calls == [GetRecord] + LookupMachine(s, f, s.record.value).calls + [UpdateStatus] &&
            p.state == s.(record := Some(s.record.value.(conditions := classified))) &&
            Classified(s.record.value.(conditions := classified), m)
  {
    var rec := s.record.value;
    var l := LookupMachine(s, f, rec);
    FoundMachinePass(s, f, m);
    var status := PermanentNodeDeletionExpectation(GetMachineProviderID(m.body).value);
    var expectation := PermanentNodeDeletionExpectedSet(rec.conditions, status);
    assert Act(s, f, rec, l.key, m) == Step(rec.(conditions := expectation.conditions), s, RetrySoon, None, []);
    assert l.calls + [] == l.calls;
  }

  /** The condition writes after getMachine returned: the outcome of a missing Machine, or the classification. */
  function MachineWrites(machine: Result<Machine, Error>, mustExist: bool): seq<TrackerCall>
  {
    match machine
    case Failure(e) =>
      if IsNotFound(e) then [Transition(if mustExist then RemediationFailed else RemediationFinished)] else []
    case Success(m) =>
      match GetMachineProviderID(m.body)
      case Failure(_) => []
      case Success(providerID) => [Expectation(PermanentNodeDeletionExpectation(providerID))]
  }

  /** The condition writes one pass makes on its in-memory record, in order. */
  function WriterCalls(s: State, f: Faults, rec: Record): seq<TrackerCall>
  {
    if IsTimedOutByNhc(rec) then [Transition(RemediationTimedOutByNhc)]
    else if !Armed(rec) then [Transition(RemediationStarted)]
    else
      var l := LookupMachine(s, f, rec);
      [Transition(RemediationStarted)] + MachineWrites(l.machine, l.mustExist)
  }

  /** The gate writes no condition. */
  lemma GateKeepsConditions(s: State, f: Faults, mdr: Record, key: NamespacedName, m: Machine)
    ensures Gate(s, f, mdr, key, m).mdr.conditions == mdr.conditions
  {
    assert SaveBinding(s, f, mdr, key).mdr.conditions == mdr.conditions;
  }

  /** After getMachine, the conditions are the Machine's writes replayed. */
  lemma ResolvedReplaysWriters(s: State, f: Faults, mdr: Record, machine: Result<Machine, Error>,
                               key: NamespacedName, mustExist: bool)
    ensures Resolved(s, f, mdr, machine, key, mustExist).mdr.conditions ==
            Replay(mdr.conditions, MachineWrites(machine, mustExist))
  {
    var calls := MachineWrites(machine, mustExist);
    if calls != [] {
      assert Replay(mdr.conditions, calls) == Apply(mdr.conditions, calls[0]) by {
        assert calls[1..] == [];
      }
    }
    if machine.Success? {
      GateKeepsConditions(s, f, mdr, key, machine.value);
    }
  }

  /** The body's conditions are those writes replayed on the record's conditions. */
  lemma BodyReplaysWriters(s: State, f: Faults, rec: Record)
    ensures Body(s, f, rec).mdr.conditions == Replay(rec.conditions, WriterCalls(s, f, rec))
  {
    var calls := WriterCalls(s, f, rec);
    assert Replay(rec.conditions, calls) == Replay(Apply(rec.conditions, calls[0]), calls[1..]);
    if !IsTimedOutByNhc(rec) && Armed(rec) {
      var l := LookupMachine(s, f, rec);
      assert Apply(rec.conditions, calls[0]) == rec.conditions;
      assert calls[1..] == MachineWrites(l.machine, l.mustExist);
      ResolvedReplaysWriters(s, f, rec, l.machine, l.key, l.mustExist);
      var rest := Resolved(s, f, rec, l.machine, l.key, l.mustExist);
      assert Body(s, f, rec) == rest.(calls := l.calls + rest.calls);
    } else {
      assert calls[1..] == [];
    }
  }

  /**
   * The latch over a whole pass: once the stored Processing condition is
   * False, no pass sets it back, whatever the record, the cluster or the
   * API server's answers.
   */
  lemma NoRearmAfterProcessingFalse(s: State, f: Faults)
    requires s.record.Some? && IsStatusConditionPresentAndEqual(s.record.value.conditions, Processing, ConditionFalse)
    ensures var after := Pass(s, f).state.record;
            after.Some? && IsStatusConditionPresentAndEqual(after.value.conditions, Processing, ConditionFalse)
  {
    if GetRecordOp(s, f).Success? {
      var rec := s.record.value;
      BodyWrites(s, f, rec);
      BodyReplaysWriters(s, f, rec);
      ProcessingLatch(rec.conditions, WriterCalls(s, f, rec));
    }
  }

  /** getMachine reads the record's name and annotations, the Nodes and the Machines, and nothing else. */
  lemma LookupIgnoresConditions(s: State, s2: State, f: Faults, rec: Record, rec2: Record)
    requires s.nodes == s2.nodes && s.machines == s2.machines
    requires rec.name == rec2.name && rec.annotations == rec2.annotations
    ensures LookupMachine(s, f, rec) == LookupMachine(s2, f, rec2)
  {
    assert MachineNameNsFromRemediation(rec.annotations, rec.name) == MachineNameNsFromRemediation(rec2.annotations, rec2.name);
    assert GetNodeOp(s, f, rec.name) == GetNodeOp(s2, f, rec2.name);
    assert forall key :: FetchMachine(s, f, key) == FetchMachine(s2, f, key);
  }

  /** A quiet gate (neither an error nor a requeue) wrote nothing: the Machine had no controlling owner. */
  lemma QuietGate(s: State, f: Faults, mdr: Record, key: NamespacedName, m: Machine)
    requires Gate(s, f, mdr, key, m).directive == Done && Gate(s, f, mdr, key, m).err.None?
    ensures Gate(s, f, mdr, key, m) == Step(mdr, s, Done, None, [])
  {
  }

  /** A quiet ending after getMachine wrote nothing to the store and at most the conditions in memory. */
  lemma QuietResolved(s: State, f: Faults, mdr: Record, machine: Result<Machine, Error>, key: NamespacedName,
                      mustExist: bool)
    requires var r := Resolved(s, f, mdr, machine, key, mustExist); r.directive == Done && r.err.None?
    ensures var r := Resolved(s, f, mdr, machine, key, mustExist);
            r.state == s && r.calls == [] &&
            r.mdr == (if machine.Failure? then ApplyReason(mdr, if mustExist then RemediationFailed else RemediationFinished).0
                      else mdr)
  {
    if machine.Success? {
      var m := machine.value;
      if GetMachineProviderID(m.body).Success? {
        var status := PermanentNodeDeletionExpectation(GetMachineProviderID(m.body).value);
        if !PermanentNodeDeletionExpectedSet(mdr.conditions, status).changed {
          QuietGate(s, f, mdr, key, m);
        }
      }
    }
  }

  /** A pass that ends quietly writes at most the conditions of its record. */
  lemma QuietBody(s: State, rec: Record)
    requires var b := Body(s, NoFaults, rec); b.directive == Done && b.err.None?
    ensures var b := Body(s, NoFaults, rec);
            var l := LookupMachine(s, NoFaults, rec);
            b.state == s &&
            (if IsTimedOutByNhc(rec) then b == Step(ApplyReason(rec, RemediationTimedOutByNhc).0, s, Done, None, [])
             else Armed(rec) &&
                  b == Step(if l.machine.Failure?
                            then ApplyReason(rec, if l.mustExist then RemediationFailed else RemediationFinished).0
                            else rec, s, Done, None, l.calls))
  {
    if !IsTimedOutByNhc(rec) && Armed(rec) {
      var l := LookupMachine(s, NoFaults, rec);
      var rest := Resolved(s, NoFaults, rec, l.machine, l.key, l.mustExist);
      assert Body(s, NoFaults, rec) == rest.(calls := l.calls + rest.calls);
      QuietResolved(s, NoFaults, rec, l.machine, l.key, l.mustExist);
      assert l.calls + [] == l.calls;
    }
  }

  /** The pass around a body, with no faults and the record present. */
  lemma PassAroundBody(s: State, rec: Record)
    requires s.record == Some(rec)
    ensures var b := Body(s, NoFaults, rec);
            b.state.record.Some? ==>
            Pass(s, NoFaults) == Outcome(b.state.(record := Some(b.state.record.value.(conditions := b.mdr.conditions))),
                                         b.directive, b.err, [GetRecord] + b.calls + [UpdateStatus])
  {
  }

  /**
   * A pass that ends with neither an error nor a requeue is a fixed point
   * while the cluster stays as it is: running it again on the store it left
   * issues the same calls and ends the same way, changing nothing.
   */
  lemma QuietPassIsFixedPoint(s: State)
    requires Pass(s, NoFaults).directive == Done && Pass(s, NoFaults).err.None?
    ensures Pass(Pass(s, NoFaults).state, NoFaults) == Pass(s, NoFaults)
  {
    if s.record.Some? {
      var rec := s.record.value;
      var b := Body(s, NoFaults, rec);
      PassAroundBody(s, rec);
      QuietBody(s, rec);
      var rec2 := b.mdr;
      var s2 := s.(record := Some(rec2));
      assert rec2 == rec.(conditions := rec2.conditions);
      assert Pass(s, NoFaults) == Outcome(s2, Done, None, [GetRecord] + b.calls + [UpdateStatus]);
      LookupIgnoresConditions(s, s2, NoFaults, rec, rec2);
      var l := LookupMachine(s, NoFaults, rec);
      if IsTimedOutByNhc(rec) {
        UpdateConditionsIdempotent(rec.conditions, RemediationTimedOutByNhc);
        assert Body(s2, NoFaults, rec2) == Step(rec2, s2, Done, None, []);
      } else if l.machine.Failure? {
        var reason := if l.mustExist then RemediationFailed else RemediationFinished;
        UpdateConditionsIdempotent(rec.conditions, reason);
        assert Armed(rec2);
        var rest2 := Resolved(s2, NoFaults, rec2, l.machine, l.key, l.mustExist);
        assert rest2 == Step(rec2, s2, Done, None, []);
        assert Body(s2, NoFaults, rec2) == rest2.(calls := l.calls + rest2.calls);
        assert l.calls + [] == l.calls;
      } else {
        assert s2 == s;
      }
      PassAroundBody(s2, rec2);
    }
  }

  /**
   * The converse of the deletion gate: when it is open and the binding can be
   * saved, the pass deletes the Machine it found, and asks to be requeued at
   * once when the delete and the status write go through.
   */
  lemma DeleteWhenGateOpen(s: State, f: Faults, m: Machine)
    requires GetRecordOp(s, f).Success? && Armed(s.record.value) && f.updateRecord.None?
    requires LookupMachine(s, f, s.record.value).machine == Success(m)
    requires !m.deletionRequested && ControllerOwned(m.ownerRefs) && Classified(s.record.value, m)
    ensures DeleteMachine(LookupMachine(s, f, s.record.value).key) in Pass(s, f).calls
    ensures f.deleteMachine.None? && f.updateStatus.None? ==>
      var l := LookupMachine(s, f, s.record.value);
      var save := SaveBinding(s, f, s.record.value, l.key);
      var p := Pass(s, f);
      p.directive == RequeueNow && p.err.None? &&
      p.calls == [GetRecord] + l.calls + save.calls + [DeleteMachine(l.key), UpdateStatus] &&
      p.state == s.(record := Some(save.mdr), machines := MarkedForDeletion(s.machines, l.key))
  {
    var rec := s.record.value;
    var l := LookupMachine(s, f, rec);
    FoundMachinePass(s, f, m);
    GateOpen(s, f, rec, l.key, m);
    var g := Gate(s, f, rec, l.key, m);
    assert Act(s, f, rec, l.key, m) == g;
    Regrouped(GetRecord, l.calls, SaveBinding(s, f, rec, l.key).calls, DeleteMachine(l.key), UpdateStatus);
  }

  /** An open gate saves the binding and deletes the Machine. */
  lemma GateOpen(s: State, f: Faults, mdr: Record, key: NamespacedName, m: Machine)
    requires s.record == Some(mdr) && f.updateRecord.None? && key in s.machines
    requires !m.deletionRequested && ControllerOwned(m.ownerRefs)
    ensures var save := SaveBinding(s, f, mdr, key);
            var g := Gate(s, f, mdr, key, m);
            save.err.None? && g.mdr == save.mdr && g.calls == save.calls + [DeleteMachine(key)] &&
            g.state.record == Some(save.mdr) &&
            (f.deleteMachine.None? ==>
               g.directive == RequeueNow && g.err.None? && g.state.machines == MarkedForDeletion(s.machines, key))
  {
    var save := SaveBinding(s, f, mdr, key);
    assert save.state.machines == s.machines && save.state.record == Some(save.mdr);
  }

  /**
   * The Processing latch does not stop a deletion: a record whose Processing
   * is already False (a remediation that failed or finished) still has its
   * Machine deleted when the gate is open, for the arming step writes
   * nothing and the pass goes on to the Machine.
   */
  lemma LatchDoesNotStopDeletion(s: State, f: Faults, m: Machine)
    requires GetRecordOp(s, f).Success? && !IsTimedOutByNhc(s.record.value) && f.updateRecord.None?
    requires IsStatusConditionPresentAndEqual(s.record.value.conditions, Processing, ConditionFalse)
    requires LookupMachine(s, f, s.record.value).machine == Success(m)
    requires !m.deletionRequested && ControllerOwned(m.ownerRefs) && Classified(s.record.value, m)
    ensures DeleteMachine(LookupMachine(s, f, s.record.value).key) in Pass(s, f).calls
  {
    assert Armed(s.record.value);
    DeleteWhenGateOpen(s, f, m);
  }

  /**
   * A binding "<namespace>/" parses, but to an empty name, which counts as no
   * binding: the Machine is looked up through the Node again, and the
   * binding is never rewritten, since saveMachineNameNs only checks that the
   * key is present.
   */
  lemma EmptyNameBindingTakesColdPath(s: State, f: Faults, rec: Record, namespace: string, key: NamespacedName)
    requires '/' !in namespace
    requires MachineNameNsAnnotation in rec.annotations && rec.annotations[MachineNameNsAnnotation] == namespace + "/"
    ensures var l := LookupMachine(s, f, rec); |l.calls| > 0 && l.calls[0] == GetNode(rec.name)
    ensures SaveBinding(s, f, rec, key) == Save(rec, s, None, [])
  {
    FormatThenExtract(NamespacedName(namespace, ""), rec.name);
    assert Format(NamespacedName(namespace, "")) == namespace + "/";
  }

  /**
   * A status write that fails makes the pass requeue after a second; a
   * conflict is swallowed, and any other failure is reported together with
   * the body's own error.
   */
  lemma FailedStatusWriteRetries(s: State, f: Faults)
    requires GetRecordOp(s, f).Success? && f.updateStatus.Some?
    ensures var p := Pass(s, f);
            var b := Body(s, f, s.record.value);
            p.directive == b.directive.(requeueAfter := OneSecond) && p.state == b.state &&
            (f.updateStatus == Some(Conflict) ==> p.err == b.err) &&
            (f.updateStatus != Some(Conflict) ==>
               p.err.Some? && p.err.value.Aggregate? && Api(f.updateStatus.value) in p.err.value.errors &&
               (b.err.Some? ==> b.err.value in p.err.value.errors))
  {
  }

  /**
   * Arming: a record that is neither stopped nor already marked as
   * processing gets Processing=True and Succeeded=Unknown, and the pass
   * returns at once to be requeued after a second, before any lookup.
   */
  lemma UnarmedPassArms(s: State, f: Faults)
    requires GetRecordOp(s, f).Success? && !IsTimedOutByNhc(s.record.value) && !Armed(s.record.value)
    requires f.updateStatus.None?
    ensures var p := Pass(s, f);
            var armed := UpdatedConditions(s.record.value.conditions, RemediationStarted).value.conditions;
            p.directive == RetrySoon && p.err.None? && p.calls == [GetRecord, UpdateStatus] &&
            p.state == s.(record := Some(s.record.value.(conditions := armed))) &&
            HasOutcome(armed, ConditionTrue, ConditionUnknown)
  {
    var rec := s.record.value;
    var arm := UpdatedConditions(rec.conditions, RemediationStarted).value;
    assert Body(s, f, rec) == Step(rec.(conditions := arm.conditions), s, RetrySoon, None, []);
  }

  /**
   * Once the record is bound to a named Machine, the Node is not consulted:
   * a change to the Node's own annotation does not change which Machine a
   * pass follows.
   */
  lemma BoundRecordIgnoresNode(s: State, f: Faults, rec: Record, nodes: map<string, Node>)
    requires MachineNameNsAnnotation in rec.annotations
    requires MachineNameNsFromRemediation(rec.annotations, rec.name).Success?
    requires MachineNameNsFromRemediation(rec.annotations, rec.name).value.name != ""
    ensures LookupMachine(s.(nodes := nodes), f, rec) == LookupMachine(s, f, rec)
    ensures Format(LookupMachine(s, f, rec).key) == rec.annotations[MachineNameNsAnnotation]
  {
    var key := MachineNameNsFromRemediation(rec.annotations, rec.name).value;
    assert FetchMachine(s.(nodes := nodes), f, key) == FetchMachine(s, f, key);
  }
}
