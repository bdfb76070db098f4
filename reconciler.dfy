// The reconcile pass: a pure definition of what one pass does to the store
// (Pass, built from Body and its stages), and the controller's imperative
// Reconcile over the client, proved to do exactly that.

module Reconciler {
  import opened Wrappers
  import opened Errors
  import opened Conditions
  import opened Resources
  import opened Binding
  import opened MachineFields
  import opened Cluster

  /** The annotation the health checker sets to stop a remediation; its value is ignored. */
  const NhcTimedOutAnnotation: string := "remediation.medik8s.io/nhc-timed-out"

  /** The requeue delays the controller uses, as an enumeration. */
  datatype Delay = NoDelay | OneSecond | ThirtySeconds

  /** ctrl.Result: requeue now, and/or requeue after a delay. */
  datatype Directive = Directive(requeue: bool, requeueAfter: Delay)

  const Done: Directive := Directive(false, NoDelay)
  const RetrySoon: Directive := Directive(false, OneSecond)
  const Poll: Directive := Directive(false, ThirtySeconds)
  const RequeueNow: Directive := Directive(true, NoDelay)

  /** isTimedOutByNHC: the stop annotation is present and the record is not being deleted. */
  predicate IsTimedOutByNhc(mdr: Record): (stop: bool)
    ensures stop ==> NhcTimedOutAnnotation in mdr.annotations
    ensures mdr.deletionRequested ==> !stop
  {
    !mdr.deletionRequested && NhcTimedOutAnnotation in mdr.annotations
  }

  /** Where a stage of the pass leaves the in-memory record, the store, the result and the trace. */
  datatype Step = Step(mdr: Record, state: State, directive: Directive, err: Option<Error>, calls: seq<Call>)

  /** The in-memory record after updateConditions(reason), with the error it returned. */
  function ApplyReason(mdr: Record, reason: string): (Record, Option<Error>)
  {
    match UpdatedConditions(mdr.conditions, reason)
    case Success(u) => (mdr.(conditions := u.conditions), None)
    case Failure(e) => (mdr, Some(e))
  }

  /** The outcome of getMachine: the Machine or the error, its key, and whether it must exist. */
  datatype MachineLookup = MachineLookup(machine: Result<Machine, Error>, key: NamespacedName, mustExist: bool,
                                         calls: seq<Call>)

  function FetchMachine(s: State, f: Faults, key: NamespacedName): (r: Result<Machine, Error>)
    ensures r.Success? <==> f.getMachine.None? && key in s.machines
    ensures r.Success? ==> r.value == s.machines[key]
    ensures r.Failure? ==> r.error == Api(if f.getMachine.Some? then f.getMachine.value else NotFound)
  {
    match GetMachineOp(s, f, key)
    case Success(m) => Success(m)
    case Failure(e) => Failure(Api(e))
  }

  /**
   * getMachine: the record's own binding when it names a Machine (warm path,
   * the Machine may be gone), otherwise the Node's annotation (cold path,
   * the Machine must exist). A binding with an empty name counts as none.
   */
  function LookupMachine(s: State, f: Faults, mdr: Record): (l: MachineLookup)
    ensures forall c :: c in l.calls ==> c.GetNode? || c.GetMachine?
    ensures l.machine.Success? ==> l.key in s.machines && l.machine.value == s.machines[l.key]
    // a malformed binding is returned before any call
    ensures var bound := MachineNameNsFromRemediation(mdr.annotations, mdr.name);
            bound.Failure? ==> l.machine == Failure(bound.error) && l.calls == [] && !l.mustExist
    // warm path: the binding names the Machine, which may be gone
    ensures var bound := MachineNameNsFromRemediation(mdr.annotations, mdr.name);
            bound.Success? && bound.value.name != "" ==>
              l.key == bound.value && !l.mustExist && l.calls == [Call.GetMachine(bound.value)] &&
              l.machine == FetchMachine(s, f, bound.value)
  {
    var bound := MachineNameNsFromRemediation(mdr.annotations, mdr.name);
    if bound.Failure? then MachineLookup(Failure(bound.error), NamespacedName("", ""), false, [])
    else if bound.value.name != "" then
      MachineLookup(FetchMachine(s, f, bound.value), bound.value, false, [Call.GetMachine(bound.value)])
    else
      match GetNodeOp(s, f, mdr.name)
      case Failure(e) => MachineLookup(Failure(Api(e)), NamespacedName("", ""), false, [GetNode(mdr.name)])
      case Success(node) =>
        match MachineNameNsFromNode(node)
        case Failure(e) => MachineLookup(Failure(e), NamespacedName("", ""), false, [GetNode(mdr.name)])
        case Success(key) =>
          MachineLookup(FetchMachine(s, f, key), key, true, [GetNode(mdr.name), Call.GetMachine(key)])
  }

  /**
   * getMachine's cold path: the Machine must exist exactly when the record
   * has no usable binding and the Node was read and names a Machine; its
   * key is then the one followed. Otherwise the Node's error is returned.
   */
  lemma LookupMachineColdPath(s: State, f: Faults, mdr: Record)
    ensures var l, bound, node := LookupMachine(s, f, mdr), MachineNameNsFromRemediation(mdr.annotations, mdr.name),
                                  GetNodeOp(s, f, mdr.name);
            l.mustExist <==>
              bound.Success? && bound.value.name == "" && node.Success? && MachineNameNsFromNode(node.value).Success?
    ensures var l, node := LookupMachine(s, f, mdr), GetNodeOp(s, f, mdr.name);
            l.mustExist ==>
              node.Success? && l.key == MachineNameNsFromNode(node.value).value &&
              l.calls == [GetNode(mdr.name), Call.GetMachine(l.key)] && l.machine == FetchMachine(s, f, l.key)
    ensures var l, bound, node := LookupMachine(s, f, mdr), MachineNameNsFromRemediation(mdr.annotations, mdr.name),
                                  GetNodeOp(s, f, mdr.name);
            bound.Success? && bound.value.name == "" && !l.mustExist ==>
              l.calls == [GetNode(mdr.name)] && l.machine.Failure? &&
              (node.Failure? ==> l.machine.error == Api(node.error)) &&
              (node.Success? ==> l.machine.error == MachineNameNsFromNode(node.value).error)
  {
  }

  /** What saveMachineNameNs did: the in-memory record and store after it, its error and its calls. */
  datatype Save = Save(mdr: Record, state: State, err: Option<ApiError>, calls: seq<Call>)

  /**
   * saveMachineNameNs: write-once. An existing binding is left as it is and
   * nothing is sent; otherwise only the binding key is added and the record
   * is updated.
   */
  function SaveBinding(s: State, f: Faults, mdr: Record, key: NamespacedName): (r: Save)
    ensures MachineNameNsAnnotation in mdr.annotations ==> r == Save(mdr, s, None, [])
    ensures MachineNameNsAnnotation !in mdr.annotations ==>
      r.mdr == mdr.(annotations := mdr.annotations[MachineNameNsAnnotation := Format(key)]) &&
      r.calls == [UpdateRecord] &&
      r == (var w := UpdateRecordOp(s, f, r.mdr.annotations); Save(r.mdr, w.state, w.err, [UpdateRecord]))
  {
    if MachineNameNsAnnotation in mdr.annotations then Save(mdr, s, None, [])
    else
      var annotated := mdr.(annotations := mdr.annotations[MachineNameNsAnnotation := Format(key)]);
      var w := UpdateRecordOp(s, f, annotated.annotations);
      Save(annotated, w.state, w.err, [UpdateRecord])
  }

  /** Lines after the Machine was found: classify, then gate, save and delete. */
  function Act(s: State, f: Faults, mdr: Record, key: NamespacedName, machine: Machine): (r: Step)
    // a newly recorded classification ends the pass before the gate
    ensures r.mdr.conditions != mdr.conditions ==> r.directive == RetrySoon && r.state == s && r.calls == []
    ensures r.state.nodes == s.nodes
  {
    match GetMachineProviderID(machine.body)
    case Failure(_) => Step(mdr, s, Done, None, [])
    case Success(providerID) =>
      var expectation := PermanentNodeDeletionExpectedSet(mdr.conditions, PermanentNodeDeletionExpectation(providerID));
      if expectation.changed then Step(mdr.(conditions := expectation.conditions), s, RetrySoon, None, [])
      else Gate(s, f, mdr, key, machine)
  }

  /**
   * The deletion gate: a Machine already being deleted is polled, one
   * without a controlling owner is left alone; otherwise the binding is
   * saved and the Machine deleted.
   */
  function Gate(s: State, f: Faults, mdr: Record, key: NamespacedName, machine: Machine): (r: Step)
    ensures r.mdr.conditions == mdr.conditions && r.state.nodes == s.nodes
    ensures r.calls != [] ==> !machine.deletionRequested && ControllerOwned(machine.ownerRefs)
    ensures r.directive == RequeueNow ==> r.err.None? && |r.calls| > 0 && r.calls[|r.calls| - 1] == DeleteMachine(key)
  {
    if machine.deletionRequested then Step(mdr, s, Poll, None, [])
    else if !ControllerOwned(machine.ownerRefs) then Step(mdr, s, Done, None, [])
    else
      var save := SaveBinding(s, f, mdr, key);
      if save.err.Some? then Step(save.mdr, save.state, Done, Some(SaveFailed(save.err.value)), save.calls)
      else
        var del := DeleteMachineOp(save.state, f, key);
        var issued := save.calls + [DeleteMachine(key)];
        if del.err.Some? then Step(save.mdr, del.state, Done, Some(Api(del.err.value)), issued)
        else Step(save.mdr, del.state, RequeueNow, None, issued)
  }

  /** Lines after getMachine returned: a missing Machine ends the remediation, other errors are returned. */
  function Resolved(s: State, f: Faults, mdr: Record, machine: Result<Machine, Error>, key: NamespacedName,
                    mustExist: bool): (r: Step)
    // a failed lookup ends the pass without a call and without touching the store
    ensures machine.Failure? ==> r.state == s && r.calls == [] && r.directive == Done
    ensures machine.Failure? && !IsNotFound(machine.error) ==> r.err == Some(machine.error) && r.mdr == mdr
    ensures r.state.nodes == s.nodes
  {
    match machine
    case Failure(e) =>
      if IsNotFound(e) then
        var (m, err) := ApplyReason(mdr, if mustExist then RemediationFailed else RemediationFinished);
        Step(m, s, Done, err, [])
      else Step(mdr, s, Done, Some(e), [])
    case Success(found) => Act(s, f, mdr, key, found)
  }

  /** The body of Reconcile between reading the record and the deferred status flush. */
  function Body(s: State, f: Faults, mdr: Record): (b: Step)
    // the stop signal and the arming write end the pass before any lookup
    ensures IsTimedOutByNhc(mdr) ==> b.state == s && b.calls == [] && b.directive == Done
    ensures !IsTimedOutByNhc(mdr) && UpdatedConditions(mdr.conditions, RemediationStarted).Success? &&
            UpdatedConditions(mdr.conditions, RemediationStarted).value.changed ==>
      b.state == s && b.calls == [] && b.directive == RetrySoon
    ensures b.state.nodes == s.nodes
  {
    if IsTimedOutByNhc(mdr) then
      var (m, err) := ApplyReason(mdr, RemediationTimedOutByNhc);
      Step(m, s, Done, err, [])
    else
      match UpdatedConditions(mdr.conditions, RemediationStarted)
      case Failure(e) => Step(mdr, s, Done, Some(e), [])
      case Success(arm) =>
        if arm.changed then Step(mdr.(conditions := arm.conditions), s, RetrySoon, None, [])
        else
          var lookup := LookupMachine(s, f, mdr);
          var rest := Resolved(s, f, mdr, lookup.machine, lookup.key, lookup.mustExist);
          rest.(calls := lookup.calls + rest.calls)
  }

  /**
   * The deferred flush's effect on the result: a failed status write forces
   * a one-second requeue; a conflict is swallowed, any other failure is
   * folded into the returned error.
   */
  function Flush(directive: Directive, err: Option<Error>, updateErr: Option<ApiError>): (r: (Directive, Option<Error>))
    ensures updateErr.None? ==> r == (directive, err)
    ensures updateErr.Some? ==> r.0 == directive.(requeueAfter := OneSecond)
    ensures updateErr == Some(Conflict) ==> r.1 == err
    ensures updateErr.Some? && updateErr != Some(Conflict) ==>
      r.1.Some? && r.1.value.Aggregate? && Api(updateErr.value) in r.1.value.errors &&
      (err.Some? ==> err.value in r.1.value.errors)
  {
    if updateErr.None? then (directive, err)
    else
      var folded := if updateErr.value == Conflict then err
                    else Some(Aggregate([Api(updateErr.value)] + if err.Some? then [err.value] else []));
      (directive.(requeueAfter := OneSecond), folded)
  }

  /** The whole of one pass: the store after it, the result, the error and the calls issued. */
  datatype Outcome = Outcome(state: State, directive: Directive, err: Option<Error>, calls: seq<Call>)

  /**
   * One reconcile pass: a missing record ends it quietly, an unreadable one
   * returns the error; otherwise the body runs and the in-memory conditions
   * are flushed to the status whatever path the body took.
   */
  function Pass(s: State, f: Faults): (p: Outcome)
    ensures |p.calls| > 0 && p.calls[0] == GetRecord && p.state.nodes == s.nodes
    ensures GetRecordOp(s, f).Failure? ==> p.state == s && p.directive == Done && p.calls == [GetRecord]
    // once the record is read, the status write is issued on every path, last
    ensures GetRecordOp(s, f).Success? ==> |p.calls| >= 2 && p.calls[|p.calls| - 1] == UpdateStatus
  {
    match GetRecordOp(s, f)
    case Failure(e) => Outcome(s, Done, if e == NotFound then None else Some(Api(e)), [GetRecord])
    case Success(rec) =>
      var b := Body(s, f, rec);
      var w := UpdateStatusOp(b.state, f, b.mdr.conditions);
      var (directive, err) := Flush(b.directive, b.err, w.err);
      Outcome(w.state, directive, err, [GetRecord] + b.calls + [UpdateStatus])
  }

  /** getMachine over the client. */
  method GetMachine(client: Client, mdr: Remediation) returns (machine: Result<Machine, Error>, key: NamespacedName, mustExist: bool)
    modifies client`calls
    ensures var l := LookupMachine(client.Snapshot(), client.faults, mdr.Snapshot());
            machine == l.machine && key == l.key && mustExist == l.mustExist &&
            client.calls == old(client.calls) + l.calls
  {
    ghost var start := client.calls;
    var bound := MachineNameNsFromRemediation(mdr.annotations, mdr.name);
    if bound.Failure? {
      return Failure(bound.error), NamespacedName("", ""), false;
    }

    key, mustExist := bound.value, false;
    if key.name == "" {
      // no binding yet: read the Machine's key off the Node
      var node := client.GetNode(mdr.name);
      if node.Failure? {
        return Failure(Api(node.error)), NamespacedName("", ""), false;
      }
      var fromNode := MachineNameNsFromNode(node.value);
      if fromNode.Failure? {
        return Failure(fromNode.error), NamespacedName("", ""), false;
      }
      key, mustExist := fromNode.value, true;
    }

    var got := client.GetMachine(key);
    machine := if got.Success? then Success(got.value) else Failure(Api(got.error));
    assert machine == FetchMachine(client.Snapshot(), client.faults, key);
    assert client.calls == start + (if mustExist then [GetNode(mdr.name), Call.GetMachine(key)] else [Call.GetMachine(key)]);
  }

  /** saveMachineNameNs over the client and the in-memory record. */
  method SaveMachineNameNs(client: Client, mdr: Remediation, key: NamespacedName) returns (err: Option<ApiError>)
    modifies client`record, client`calls, mdr`annotations
    ensures var r := SaveBinding(old(client.Snapshot()), client.faults, old(mdr.Snapshot()), key);
            mdr.Snapshot() == r.mdr && client.Snapshot() == r.state && err == r.err &&
            client.calls == old(client.calls) + r.calls
  {
    if MachineNameNsAnnotation in mdr.annotations {
      return None;
    }
    mdr.annotations := mdr.annotations[MachineNameNsAnnotation := Format(key)];
    err := client.Update(mdr);
  }

  lemma Associative<T>(a: seq<T>, b: seq<T>, c: seq<T>)
    ensures (a + b) + c == a + (b + c)
  {
  }

  lemma Bracketed<T>(a: seq<T>, b: seq<T>, c: seq<T>, d: seq<T>)
    ensures a + b + c + d == a + (b + c + d)
  {
  }

  /** The body of Reconcile, before the deferred flush. */
  method ReconcileBody(client: Client, mdr: Remediation) returns (directive: Directive, err: Option<Error>)
    modifies client`record, client`machines, client`calls, mdr`conditions, mdr`annotations
    ensures var b := Body(old(client.Snapshot()), client.faults, old(mdr.Snapshot()));
            client.Snapshot() == b.state && mdr.Snapshot() == b.mdr && directive == b.directive &&
            err == b.err && client.calls == old(client.calls) + b.calls
  {
    ghost var s0, m0, c0 := client.Snapshot(), mdr.Snapshot(), client.calls;
    if IsTimedOutByNhc(mdr.Snapshot()) {
      var _, e := mdr.UpdateConditions(RemediationTimedOutByNhc);
      return Done, e;
    }

    var updateRequired, e := mdr.UpdateConditions(RemediationStarted);
    if e.Some? {
      return Done, e;
    } else if updateRequired {
      return RetrySoon, None;
    }
    assert mdr.Snapshot() == m0;

    var machine, key, mustExist := GetMachine(client, mdr);
    ghost var lookup := LookupMachine(s0, client.faults, m0);
    assert machine == lookup.machine && key == lookup.key && mustExist == lookup.mustExist;
    ghost var c1 := client.calls;
    assert c1 == c0 + lookup.calls;
    assert client.Snapshot() == s0 && mdr.Snapshot() == m0;
    directive, err := ResolveMachine(client, mdr, machine, key, mustExist);
    ghost var rest := Resolved(s0, client.faults, m0, machine, key, mustExist);
    assert client.calls == c1 + rest.calls;
    Associative(c0, lookup.calls, rest.calls);
    assert Body(s0, client.faults, m0) == rest.(calls := lookup.calls + rest.calls);
  }

  /** Reconcile after getMachine returned. */
  method ResolveMachine(client: Client, mdr: Remediation, machine: Result<Machine, Error>, key: NamespacedName,
                        mustExist: bool)
    returns (directive: Directive, err: Option<Error>)
    modifies client`record, client`machines, client`calls, mdr`conditions, mdr`annotations
    ensures var b := Resolved(old(client.Snapshot()), client.faults, old(mdr.Snapshot()), machine, key, mustExist);
            client.Snapshot() == b.state && mdr.Snapshot() == b.mdr && directive == b.directive &&
            err == b.err && client.calls == old(client.calls) + b.calls
  {
    if machine.Failure? {
      if IsNotFound(machine.error) {
        var _, e := mdr.UpdateConditions(if mustExist then RemediationFailed else RemediationFinished);
        return Done, e;
      }
      return Done, Some(machine.error);
    }
    directive, err := ActOnMachine(client, mdr, key, machine.value);
  }

  /** Reconcile once the Machine was found: classify, gate, save the binding and delete. */
  method ActOnMachine(client: Client, mdr: Remediation, key: NamespacedName, machine: Machine)
    returns (directive: Directive, err: Option<Error>)
    modifies client`record, client`machines, client`calls, mdr`conditions, mdr`annotations
    ensures var b := Act(old(client.Snapshot()), client.faults, old(mdr.Snapshot()), key, machine);
            client.Snapshot() == b.state && mdr.Snapshot() == b.mdr && directive == b.directive &&
            err == b.err && client.calls == old(client.calls) + b.calls
  {
    var providerID := GetMachineProviderID(machine.body);
    if providerID.Failure? {
      // the pass ends with neither an error nor a requeue
      return Done, None;
    }

    var expectationChanged := mdr.SetPermanentNodeDeletionExpectedCondition(PermanentNodeDeletionExpectation(providerID.value));
    if expectationChanged {
      return RetrySoon, None;
    }

    directive, err := GateAndDelete(client, mdr, key, machine);
  }

  /** The deletion gate over the client: poll, leave alone, or save the binding and delete. */
  method GateAndDelete(client: Client, mdr: Remediation, key: NamespacedName, machine: Machine)
    returns (directive: Directive, err: Option<Error>)
    modifies client`record, client`machines, client`calls, mdr`annotations
    ensures var b := Gate(old(client.Snapshot()), client.faults, old(mdr.Snapshot()), key, machine);
            client.Snapshot() == b.state && mdr.Snapshot() == b.mdr && directive == b.directive &&
            err == b.err && client.calls == old(client.calls) + b.calls
  {
    if machine.deletionRequested {
      return Poll, None;
    }

    var owned := HasControllerOwner(machine.ownerRefs);
    if !owned {
      return Done, None;
    }

    var saveErr := SaveMachineNameNs(client, mdr, key);
    if saveErr.Some? {
      return Done, Some(SaveFailed(saveErr.value));
    }

    var deleteErr := client.Delete(key);
    if deleteErr.Some? {
      return Done, Some(Api(deleteErr.value));
    }
    return RequeueNow, None;
  }

  /** Reconcile: read the record, run the body, then flush the conditions on every path. */
  method Reconcile(client: Client) returns (directive: Directive, err: Option<Error>)
    modifies client`record, client`machines, client`calls
    ensures var p := Pass(old(client.Snapshot()), client.faults);
            client.Snapshot() == p.state && directive == p.directive && err == p.err &&
            client.calls == old(client.calls) + p.calls
  {
    ghost var start := client.calls;
    var got := client.GetRemediation();
    if got.Failure? {
      return Done, if got.error == NotFound then None else Some(Api(got.error));
    }
    var mdr := got.value;
    ghost var s0, m0 := client.Snapshot(), mdr.Snapshot();

    directive, err := ReconcileBody(client, mdr);
    ghost var b := Body(s0, client.faults, m0);
    assert client.calls == start + [Call.GetRecord] + b.calls;

    // deferred: persist the in-memory conditions whatever path was taken
    var updateErr := client.UpdateStatus(mdr);
    if updateErr.Some? {
      if updateErr.value != Conflict {
        err := Some(Aggregate([Api(updateErr.value)] + if err.Some? then [err.value] else []));
      }
      directive := directive.(requeueAfter := OneSecond);
    }
    assert client.calls == start + [Call.GetRecord] + b.calls + [Call.UpdateStatus];
    Bracketed(start, [Call.GetRecord], b.calls, [Call.UpdateStatus]);
  }
}
