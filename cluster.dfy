// The durable store behind the API server, reduced to what one reconcile
// pass reads and writes: the remediation record under reconciliation, the
// Nodes and the Machines. Each client call can be made to fail through an
// injected fault, standing for not-found, conflict and unavailability
// answers; every issued call is recorded in order.

module Cluster {
  import opened Wrappers
  import opened Errors
  import opened Conditions
  import opened Resources

  /** The durable state: the record for the request key (if any), the Nodes by name and the Machines by key. */
  datatype State = State(record: Option<Record>, nodes: map<string, Node>, machines: map<NamespacedName, Machine>)

  /** Per-call failures the API server may answer with during one pass. */
  datatype Faults = Faults(getRecord: Option<ApiError>, getNode: Option<ApiError>, getMachine: Option<ApiError>,
                           updateRecord: Option<ApiError>, deleteMachine: Option<ApiError>,
                           updateStatus: Option<ApiError>)

  const NoFaults: Faults := Faults(None, None, None, None, None, None)

  /** A client call as issued, in the order of the trace. */
  datatype Call =
    | GetRecord
    | GetNode(node: string)
    | GetMachine(machine: NamespacedName)
    | UpdateRecord
    | DeleteMachine(target: NamespacedName)
    | UpdateStatus

  /** The state after a write and the error it answered with. */
  datatype Write = Write(state: State, err: Option<ApiError>)

  function GetRecordOp(s: State, f: Faults): Result<Record, ApiError>
  {
    if f.getRecord.Some? then Failure(f.getRecord.value)
    else if s.record.None? then Failure(NotFound)
    else Success(s.record.value)
  }

  function GetNodeOp(s: State, f: Faults, name: string): Result<Node, ApiError>
  {
    if f.getNode.Some? then Failure(f.getNode.value)
    else if name !in s.nodes then Failure(NotFound)
    else Success(s.nodes[name])
  }

  function GetMachineOp(s: State, f: Faults, key: NamespacedName): Result<Machine, ApiError>
  {
    if f.getMachine.Some? then Failure(f.getMachine.value)
    else if key !in s.machines then Failure(NotFound)
    else Success(s.machines[key])
  }

  /** Update of the record's metadata: only the annotations are written. */
  function UpdateRecordOp(s: State, f: Faults, annotations: map<string, string>): (w: Write)
    ensures w.err.Some? ==> w.state == s
    ensures w.err.None? <==> f.updateRecord.None? && s.record.Some?
    ensures w.err.None? ==> w.state.record == Some(s.record.value.(annotations := annotations))
    ensures w.state.nodes == s.nodes && w.state.machines == s.machines
  {
    if f.updateRecord.Some? then Write(s, f.updateRecord)
    else if s.record.None? then Write(s, Some(NotFound))
    else Write(s.(record := Some(s.record.value.(annotations := annotations))), None)
  }

  /** Update of the record's status sub-resource: only the conditions are written. */
  function UpdateStatusOp(s: State, f: Faults, conditions: seq<Condition>): (w: Write)
    ensures w.err.Some? ==> w.state == s
    ensures w.err.None? <==> f.updateStatus.None? && s.record.Some?
    ensures w.err.None? ==> w.state.record == Some(s.record.value.(conditions := conditions))
    ensures w.state.nodes == s.nodes && w.state.machines == s.machines
  {
    if f.updateStatus.Some? then Write(s, f.updateStatus)
    else if s.record.None? then Write(s, Some(NotFound))
    else Write(s.(record := Some(s.record.value.(conditions := conditions))), None)
  }

  /**
   * Delete of a Machine: the API server sets its deletion timestamp; the
   * Machine stays until its own controller finalizes it.
   */
  function DeleteMachineOp(s: State, f: Faults, key: NamespacedName): (w: Write)
    ensures w.err.Some? ==> w.state == s
    ensures w.err.None? <==> f.deleteMachine.None? && key in s.machines
    ensures w.err.None? ==> w.state.machines == s.machines[key := s.machines[key].(deletionRequested := true)]
    ensures w.state.nodes == s.nodes && w.state.record == s.record
  {
    if f.deleteMachine.Some? then Write(s, f.deleteMachine)
    else if key !in s.machines then Write(s, Some(NotFound))
    else Write(s.(machines := s.machines[key := s.machines[key].(deletionRequested := true)]), None)
  }

  /** The controller's client: the store, the faults it answers with, and the trace of calls. */
  class Client {
    var record: Option<Record>
    var nodes: map<string, Node>
    var machines: map<NamespacedName, Machine>
    var faults: Faults
    var calls: seq<Call>

    constructor (s: State, f: Faults)
      ensures Snapshot() == s && faults == f && calls == []
    {
      record, nodes, machines := s.record, s.nodes, s.machines;
      faults := f;
      calls := [];
    }

    function Snapshot(): State
      reads this`record, this`nodes, this`machines
    {
      State(record, nodes, machines)
    }

    /** Get of the remediation record: a fresh in-memory copy of it. */
    method GetRemediation() returns (r: Result<Remediation, ApiError>)
      modifies this`calls
      ensures calls == old(calls) + [Call.GetRecord]
      ensures GetRecordOp(Snapshot(), faults).Failure? ==> r == Failure(GetRecordOp(Snapshot(), faults).error)
      ensures GetRecordOp(Snapshot(), faults).Success? ==>
        r.Success? && fresh(r.value) && r.value.Snapshot() == GetRecordOp(Snapshot(), faults).value
    {
      calls := calls + [Call.GetRecord];
      match GetRecordOp(Snapshot(), faults)
      case Failure(e) =>
        r := Failure(e);
      case Success(rec) =>
        var mdr := new Remediation(rec);
        r := Success(mdr);
    }

    method GetNode(name: string) returns (r: Result<Node, ApiError>)
      modifies this`calls
      ensures calls == old(calls) + [Call.GetNode(name)]
      ensures r == GetNodeOp(Snapshot(), faults, name)
    {
      calls := calls + [Call.GetNode(name)];
      r := GetNodeOp(Snapshot(), faults, name);
    }

    method GetMachine(key: NamespacedName) returns (r: Result<Machine, ApiError>)
      modifies this`calls
      ensures calls == old(calls) + [Call.GetMachine(key)]
      ensures r == GetMachineOp(Snapshot(), faults, key)
    {
      calls := calls + [Call.GetMachine(key)];
      r := GetMachineOp(Snapshot(), faults, key);
    }

    /** Update of the record from the in-memory copy (metadata only). */
    method Update(mdr: Remediation) returns (err: Option<ApiError>)
      modifies this`record, this`calls
      ensures calls == old(calls) + [Call.UpdateRecord]
      ensures var w := UpdateRecordOp(old(Snapshot()), faults, mdr.annotations);
              Snapshot() == w.state && err == w.err
    {
      calls := calls + [Call.UpdateRecord];
      var w := UpdateRecordOp(Snapshot(), faults, mdr.annotations);
      record := w.state.record;
      err := w.err;
    }

    /** Status().Update from the in-memory copy (conditions only). */
    method UpdateStatus(mdr: Remediation) returns (err: Option<ApiError>)
      modifies this`record, this`calls
      ensures calls == old(calls) + [Call.UpdateStatus]
      ensures var w := UpdateStatusOp(old(Snapshot()), faults, mdr.conditions);
              Snapshot() == w.state && err == w.err
    {
      calls := calls + [Call.UpdateStatus];
      var w := UpdateStatusOp(Snapshot(), faults, mdr.conditions);
      record := w.state.record;
      err := w.err;
    }

    method Delete(key: NamespacedName) returns (err: Option<ApiError>)
      modifies this`machines, this`calls
      ensures calls == old(calls) + [Call.DeleteMachine(key)]
      ensures var w := DeleteMachineOp(old(Snapshot()), faults, key);
              Snapshot() == w.state && err == w.err
    {
      calls := calls + [Call.DeleteMachine(key)];
      var w := DeleteMachineOp(Snapshot(), faults, key);
      machines := w.state.machines;
      err := w.err;
    }
  }
}
