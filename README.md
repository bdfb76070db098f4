# Machine Deletion Remediation: a verified model of the reconciler

This project models the controller of the medik8s Machine Deletion
Remediation operator in Dafny. Its reconcile pass reads a
MachineDeletionRemediation record, which is named after an unhealthy Node. It
finds the Machine that created that Node and records on the record's status
whether the replacement Node is expected to get a new name. It then deletes
the Machine and follows the deletion until the Machine is gone, keeping
the Processing and Succeeded conditions up to date. The health checker can
stop a remediation by annotating the record.

The model is split by concern:

- `common.dfy`: `Wrappers` (Option and Result) and `Errors` (the API errors and
  the errors the controller builds).
- `strings.dfy`: `Strings`, the `strings.Split` semantics the binding parser
  relies on; `Join` only serves to state what `Split` returns.
- `conditions.dfy`: `Conditions`, the condition list and the two
  set-if-changed writers (`updateConditions` and
  `setPermanentNodeDeletionExpectedCondition`) as pure functions, with the
  Processing latch over any sequence of writer calls.
- `unstructured.dfy`: `Unstructured`, schema-less object bodies with
  `NestedMap` and `NestedString`, where "absent" and "wrong type" are
  outcomes.
- `resources.dfy`: `Resources`, the record, Node and Machine values, and the
  in-memory remediation object as a class whose tracker methods update its
  conditions in place.
- `binding.dfy`: `Binding`, the `"<namespace>/<name>"` format and its two
  readers (the record's own binding annotation and the Node's machine
  annotation).
- `machine.dfy`: `MachineFields`, the providerID and phase readers, the
  platform classification, and the controller-owner scan as a loop.
- `cluster.dfy`: `Cluster`, the API server as a store with injectable
  per-call faults, and a client class that records every call it issues.
- `reconciler.dfy`: `Reconciler`, the pass as a pure function `Pass` (built
  from its stages `Body`, `Resolved`, `Act` and `Gate`), and the imperative
  `Reconcile` over the client. `Reconcile` and each of its helper methods is
  proved to do exactly what the matching function gives. This includes the
  deferred status write that runs on every exit path.
- `properties.dfy`: `Properties`, what the pass promises on every input:
  - the deletion gate and its converse;
  - write-once binding;
  - nothing else changes;
  - the stop signal;
  - missing Machine on the cold and on the warm path;
  - the 30-second poll;
  - the latch over a pass;
  - a quiet pass is a fixed point;
  - the status-write retry.
- `scenarios.dfy`: `Scenarios`, whole runs for any Node name and any
  well-formed Machine key:
  - a worker remediated to success;
  - a Node whose machine annotation is malformed;
  - a remediation stopped by the health checker.

Behaviour of the code that a reader may not expect; the model follows the code:

- A Node that is not found is read as a Machine that need not exist. A
  remediation without a binding whose Node is gone is therefore marked as
  succeeded (`Properties.MissingNodeFinishes`).
- Arming returns from the pass at once (with a requeue after one second), so
  classification happens on the next pass. A worker remediation therefore
  takes three passes to reach the delete, then polls, then succeeds on the
  first pass that finds the Machine gone (`Scenarios.RemediationRunsToSuccess`).
- The Processing latch only stops re-arming. A record whose Processing is
  already False still goes on to the lookup and the delete
  (`Properties.LatchDoesNotStopDeletion`).
- A binding `"<namespace>/"` parses to an empty name, which `getMachine`
  treats as no binding. The pass goes back to the Node, and the binding is
  never corrected, because the writer only checks that the key is present
  (`Properties.EmptyNameBindingTakesColdPath`).
- An unreadable providerID ends the pass with neither an error nor a requeue,
  so nothing happens until the record changes
  (`Properties.ProviderIdErrorStalls`).

## Model

| member | source | states |
|---|---|---|
| Strings.Split | controllers/machinedeletionremediation_controller.go:456-458 | strings.Split with "/": one piece more than there are separators, no piece holds a separator, and joining the pieces gives the string back |
| Strings.SplitAtLoneSeparator | controllers/machinedeletionremediation_controller.go:463-465 | a string with exactly one "/" splits into the part before it and the part after it |
| Binding.ExtractNameAndNamespace | controllers/machinedeletionremediation_controller.go:462-467 | parsing succeeds iff the value holds exactly one "/"; the key found formats back to the value; otherwise the error names the node |
| Binding.Format | controllers/machinedeletionremediation_controller.go:326 | the "%s/%s" rendering: the namespace, one "/" at its end, then the name, so the value holds one "/" more than its two parts |
| Binding.FormatThenExtract | controllers/machinedeletionremediation_controller.go:318-330 | round trip: the "%s/%s" value saveMachineNameNs writes parses back to the same namespace and name when neither holds a "/" |
| Binding.MachineNameNsFromRemediation | controllers/machinedeletionremediation_controller.go:332-345 | no binding reads as the empty key; a malformed binding is an error naming the remediation and the raw value; a parsed one formats back to the annotation |
| Binding.MachineNameNsFromNode | controllers/machinedeletionremediation_controller.go:445-460 | no annotation map, a missing or empty machine annotation and a value without exactly one "/" are the three distinct errors; otherwise the key formats back to the annotation |
| Conditions.FindCondition | controllers/machinedeletionremediation_controller.go:380-389 | the first condition of the type, or none when no condition has it |
| Conditions.SetStatusCondition | controllers/machinedeletionremediation_controller.go:391-402 | afterwards the condition of that type is the one written, every other type reads as before, and the list grows only when the type was absent |
| Conditions.UpdatedConditions | controllers/machinedeletionremediation_controller.go:360-405 | the reason table (Started → True/Unknown, Finished → False/True, StoppedByNHC and Failed → False/False), an unknown reason is an error, Started never re-arms a False Processing, changed iff the list changed, and PermanentNodeDeletionExpected is never touched |
| Conditions.ReasonStatuses | controllers/machinedeletionremediation_controller.go:362-377 | the reason table: exactly the four known reasons have statuses; only Started sets Processing True, and exactly then Succeeded is Unknown; only Finished sets Succeeded True |
| Conditions.WriteOutcome | controllers/machinedeletionremediation_controller.go:391-404 | Processing and Succeeded are written with the statuses and the reason, and PermanentNodeDeletionExpected is kept |
| Conditions.PermanentNodeDeletionExpectedSet | controllers/machinedeletionremediation_controller.go:407-434 | set-if-changed on the expectation status: changed iff the status was not already recorded, with the reason and message of that status; Processing and Succeeded are kept |
| Conditions.ExpectationReason | controllers/machinedeletionremediation_controller.go:409-419 | the reason recorded for each expectation status: cloud provider for True, bare metal for False, undefined for Unknown |
| Conditions.ExpectationMessage | controllers/machinedeletionremediation_controller.go:409-419 | the message recorded for each expectation status, chosen like the reason |
| Conditions.ExpectationTextsDistinct | controllers/machinedeletionremediation_controller.go:409-419 | two different statuses never share a reason or a message, so the recorded texts identify the status |
| Conditions.UpdateConditionsSetIfChanged | controllers/machinedeletionremediation_controller.go:385-389 | when both statuses of the reason are already present, updateConditions writes nothing |
| Conditions.UpdateConditionsIdempotent | controllers/machinedeletionremediation_controller.go:360-405 | a second identical updateConditions call writes nothing |
| Conditions.ExpectationIdempotent | controllers/machinedeletionremediation_controller.go:407-434 | a second identical setPermanentNodeDeletionExpectedCondition call writes nothing |
| Conditions.ProcessingLatch | controllers/machinedeletionremediation_controller.go:379-383 | once Processing is False it stays False under any sequence of tracker calls |
| Unstructured.NestedMap | controllers/machinedeletionremediation_controller.go:472-480 | a one-field read of a map: absent when the field is missing, the map when it is one, the wrong type otherwise (null included) |
| Unstructured.NestedString | controllers/machinedeletionremediation_controller.go:482-490 | a one-field read of a string: absent when the field is missing, the string when it is one, the wrong type otherwise (null included) |
| MachineFields.GetMachineProviderID | controllers/machinedeletionremediation_controller.go:494-517 | an error iff spec or spec.providerID has the wrong type; a missing spec or providerID reads as ""; a non-empty result is the stored string |
| MachineFields.GetMachineStatusPhase | controllers/machinedeletionremediation_controller.go:469-492 | status.phase when it is a string, "unknown" in every other case |
| MachineFields.PermanentNodeDeletionExpectation | controllers/machinedeletionremediation_controller.go:170-180 | an empty providerID is Unknown, a "baremetal" prefix is False, any other providerID is True, each case iff |
| MachineFields.HasControllerOwner | controllers/machinedeletionremediation_controller.go:216-224 | the loop returns true iff some owner reference has Controller set to true |
| Resources.Remediation.UpdateConditions | controllers/machinedeletionremediation_controller.go:360-405 | the in-place tracker writes exactly what UpdatedConditions computes and returns its changed flag or its error |
| Resources.Remediation.SetPermanentNodeDeletionExpectedCondition | controllers/machinedeletionremediation_controller.go:407-434 | the in-place tracker writes exactly what PermanentNodeDeletionExpectedSet computes and returns its changed flag |
| Cluster.UpdateRecordOp | controllers/machinedeletionremediation_controller.go:329 | the update succeeds iff no fault is injected and the record exists, and then replaces only the record's annotations with the ones sent; a failed update leaves the store as it was; Nodes and Machines are never written |
| Cluster.UpdateStatusOp | controllers/machinedeletionremediation_controller.go:347-358 | the status write succeeds iff no fault is injected and the record exists, then replaces only the conditions; a failure leaves the store as it was |
| Cluster.DeleteMachineOp | controllers/machinedeletionremediation_controller.go:206 | the delete succeeds iff no fault is injected and the Machine is stored, and then sets the deletion mark of that one Machine; a failed one changes nothing; the record and the Nodes are never written |
| Cluster.Client.GetRemediation | controllers/machinedeletionremediation_controller.go:233-245 | appends the call to the trace and returns a fresh in-memory copy of the stored record, or the error |
| Cluster.Client.GetNode | controllers/machinedeletionremediation_controller.go:247-257 | appends the call to the trace and returns the stored Node or the error |
| Cluster.Client.GetMachine | controllers/machinedeletionremediation_controller.go:299 | appends the call to the trace and returns the stored Machine or the error |
| Cluster.Client.Update | controllers/machinedeletionremediation_controller.go:329 | appends the call to the trace; the store becomes what UpdateRecordOp gives |
| Cluster.Client.UpdateStatus | controllers/machinedeletionremediation_controller.go:347-358 | appends the call to the trace; the store becomes what UpdateStatusOp gives |
| Cluster.Client.Delete | controllers/machinedeletionremediation_controller.go:206 | appends the call to the trace; the store becomes what DeleteMachineOp gives |
| Reconciler.FetchMachine | controllers/machinedeletionremediation_controller.go:299-313 | the Machine is found iff no fault is injected and it is stored; a failure carries the API error (NotFound for a missing Machine) |
| Reconciler.LookupMachine | controllers/machinedeletionremediation_controller.go:262-314 | a malformed binding is returned before any call; a binding with a name is followed whatever the Node says, with one Machine read and mustExist false; only Node and Machine reads are issued, and a Machine returned is the one stored under its key |
| Reconciler.LookupMachineColdPath | controllers/machinedeletionremediation_controller.go:259-311 | mustExist holds exactly when there is no usable binding and the Node was read and names a Machine, whose key is then the one followed after one Node read; otherwise, without a binding, the Node's read error or annotation error is returned after that one Node read |
| Reconciler.IsTimedOutByNhc | controllers/machinedeletionremediation_controller.go:436-443 | the stop signal needs the stop annotation to be present and the record not to be under deletion |
| Reconciler.SaveBinding | controllers/machinedeletionremediation_controller.go:318-330 | write-once: an existing binding is kept and nothing is sent; otherwise only the binding key is added, as "<namespace>/<name>", and one record update is issued |
| Reconciler.Flush | controllers/machinedeletionremediation_controller.go:112-119 | a failed status write forces a requeue after a second; a conflict keeps the body's error, any other failure is aggregated with it |
| Reconciler.Gate | controllers/machinedeletionremediation_controller.go:187-213 | the gate never changes the conditions or a Node; it issues a call only for a live, controller-owned Machine; a requeue-now ends with no error and the delete of the looked-up key as the last call |
| Reconciler.Act | controllers/machinedeletionremediation_controller.go:161-213 | a newly recorded classification ends the pass with a one-second requeue before the gate, with no call and nothing stored; Nodes are never written |
| Reconciler.Resolved | controllers/machinedeletionremediation_controller.go:137-152 | a failed lookup ends the pass with no call and the store unchanged; an error other than not-found is returned as is with the conditions untouched; Nodes are never written |
| Reconciler.Body | controllers/machinedeletionremediation_controller.go:121-214 | the stop signal and the arming write each end the pass before any lookup, with no call and nothing stored; Nodes are never written |
| Reconciler.Pass | controllers/machinedeletionremediation_controller.go:99-214 | a pass reads the record first; an unreadable or missing record ends it with nothing else done; once the record is read, the status write is issued last on every path; Nodes are never written |
| Reconciler.GetMachine | controllers/machinedeletionremediation_controller.go:262-314 | the method returns what LookupMachine gives and issues exactly its calls |
| Reconciler.SaveMachineNameNs | controllers/machinedeletionremediation_controller.go:318-330 | the method leaves the store, the in-memory annotations and the trace as SaveBinding gives them |
| Reconciler.ReconcileBody | controllers/machinedeletionremediation_controller.go:121-214 | the body after reading the record does exactly what Body gives: directive, error, store, in-memory record and calls |
| Reconciler.ResolveMachine | controllers/machinedeletionremediation_controller.go:137-152 | the branch on getMachine's result does exactly what Resolved gives |
| Reconciler.ActOnMachine | controllers/machinedeletionremediation_controller.go:161-213 | classification and the gate do exactly what Act gives |
| Reconciler.GateAndDelete | controllers/machinedeletionremediation_controller.go:187-213 | the deletion-in-flight poll, the owner check, the binding save and the delete do exactly what Gate gives |
| Reconciler.Reconcile | controllers/machinedeletionremediation_controller.go:99-214 | one pass leaves the store and the trace, and returns the directive and error, exactly as Pass gives them, status flush included |
| Properties.GateDeletes | controllers/machinedeletionremediation_controller.go:187-213 | a delete issued by the gate targets the looked-up key of a live, controller-owned Machine, after the binding was saved |
| Properties.DeleteReachesGate | controllers/machinedeletionremediation_controller.go:121-214 | a delete in a pass can only come from the gate, after arming and a successful lookup |
| Properties.DeleteRequiresGate | controllers/machinedeletionremediation_controller.go:121-214 | a pass deletes a Machine only when the record exists unstopped and armed, the lookup found that live controller-owned Machine, its classification is recorded, and the binding is stored |
| Properties.UnownedMachineNeverDeleted | controllers/machinedeletionremediation_controller.go:194-197 | a Machine with no controlling owner reference is never deleted |
| Properties.GateWrites | controllers/machinedeletionremediation_controller.go:187-213 | the gate writes at most the binding on the record and the deletion mark on the looked-up Machine |
| Properties.ResolvedWrites | controllers/machinedeletionremediation_controller.go:137-213 | after the lookup, a pass writes at most the binding and the deletion mark |
| Properties.BodyWrites | controllers/machinedeletionremediation_controller.go:121-214 | the body never writes a Node, and writes at most the binding and the deletion mark on the looked-up Machine |
| Properties.BindingWriteOnce | controllers/machinedeletionremediation_controller.go:318-330 | over a whole pass the record keeps its identity and its annotations either stay or gain the binding key it lacked; nothing else is added or overwritten |
| Properties.OnlyTheDeletedMachineChanges | controllers/machinedeletionremediation_controller.go:99-214 | a pass never changes a Node, and changes the Machines only by marking one it issued a delete for |
| Properties.StopSignalTerminates | controllers/machinedeletionremediation_controller.go:124-128 | with the stop annotation the pass writes Processing=False and Succeeded=False and issues no Node or Machine call |
| Properties.MissingMachineEnds | controllers/machinedeletionremediation_controller.go:137-148 | a missing Machine ends the pass with Failed when it had to exist and Finished otherwise, changing only the conditions |
| Properties.ColdPathMissingMachineFails | controllers/machinedeletionremediation_controller.go:277-311 | cold path: a Machine named by the Node but missing ends the remediation as failed |
| Properties.WarmPathMissingMachineFinishes | controllers/machinedeletionremediation_controller.go:264-311 | warm path: a bound Machine that is gone ends the remediation as succeeded |
| Properties.MissingNodeFinishes | controllers/machinedeletionremediation_controller.go:277-282 | a missing Node, with no binding, ends the remediation as succeeded |
| Properties.UnresolvedMachineRetries | controllers/machinedeletionremediation_controller.go:150-151 | a lookup error other than not-found is returned with nothing written, so the pass is retried |
| Properties.DeletionInFlightPolls | controllers/machinedeletionremediation_controller.go:187-192 | a Machine already being deleted makes the pass poll again after 30 seconds and write nothing |
| Properties.ProviderIdErrorStalls | controllers/machinedeletionremediation_controller.go:161-165 | an unreadable providerID ends the pass with no error, no requeue and nothing written |
| Properties.ClassificationRecordedFirst | controllers/machinedeletionremediation_controller.go:167-185 | an unrecorded classification is written first and the pass requeues after a second without touching the Machine |
| Properties.GateKeepsConditions | controllers/machinedeletionremediation_controller.go:187-213 | the gate never changes the conditions |
| Properties.ResolvedReplaysWriters | controllers/machinedeletionremediation_controller.go:137-185 | after the lookup the conditions change only through the tracker calls of that branch |
| Properties.BodyReplaysWriters | controllers/machinedeletionremediation_controller.go:121-214 | the body's conditions are its tracker calls replayed on the stored ones |
| Properties.NoRearmAfterProcessingFalse | controllers/machinedeletionremediation_controller.go:379-383 | over a whole pass, a stored Processing=False stays False whatever the store and the faults |
| Properties.LookupIgnoresConditions | controllers/machinedeletionremediation_controller.go:262-314 | getMachine depends on the record's name and annotations, the Nodes and the Machines only |
| Properties.QuietGate | controllers/machinedeletionremediation_controller.go:194-197 | a gate that ends with neither an error nor a requeue wrote nothing |
| Properties.QuietResolved | controllers/machinedeletionremediation_controller.go:137-197 | a quiet ending after the lookup wrote nothing to the store |
| Properties.QuietBody | controllers/machinedeletionremediation_controller.go:121-197 | a quiet body wrote at most the conditions |
| Properties.QuietPassIsFixedPoint | controllers/machinedeletionremediation_controller.go:99-214 | a pass that ends with neither an error nor a requeue is repeated identically by the next pass |
| Properties.DeleteWhenGateOpen | controllers/machinedeletionremediation_controller.go:199-213 | when the gate is open and the binding can be saved the Machine is deleted, and without faults the pass requeues at once with the binding stored and the Machine marked |
| Properties.GateOpen | controllers/machinedeletionremediation_controller.go:199-213 | an open gate saves the binding, then deletes the Machine and requeues at once |
| Properties.LatchDoesNotStopDeletion | controllers/machinedeletionremediation_controller.go:130-213 | a record whose Processing is already False still has its Machine deleted when the gate is open |
| Properties.EmptyNameBindingTakesColdPath | controllers/machinedeletionremediation_controller.go:264-282 | a "<namespace>/" binding is read as no binding, the Node is read again, and the binding is never rewritten |
| Properties.FailedStatusWriteRetries | controllers/machinedeletionremediation_controller.go:112-119 | a failed status write requeues after a second and reports the error unless it is a conflict |
| Properties.UnarmedPassArms | controllers/machinedeletionremediation_controller.go:130-135 | an unarmed record gets Processing=True and Succeeded=Unknown and the pass requeues after a second before any lookup |
| Properties.BoundRecordIgnoresNode | controllers/machinedeletionremediation_controller.go:264-276 | once bound, the Machine followed is the one named by the binding, whatever the Node says |
| Scenarios.FirstPassArms | controllers/machinedeletionremediation_controller_test.go:136-155 | the first pass on a fresh record arms it and requeues after a second |
| Scenarios.SecondPassClassifies | controllers/machinedeletionremediation_controller_test.go:136-155 | the second pass records that the next node name is unknown for a Machine without providerID |
| Scenarios.ThirdPassDeletes | controllers/machinedeletionremediation_controller_test.go:136-155 | the third pass saves the binding, deletes the Machine and requeues at once |
| Scenarios.FourthPassPolls | controllers/machinedeletionremediation_controller.go:187-192 | while the deletion is in flight the pass polls every 30 seconds and writes nothing |
| Scenarios.FifthPassFinishes | controllers/machinedeletionremediation_controller.go:137-148 | once the Machine is gone the pass marks the remediation as succeeded |
| Scenarios.RunAtFixedPoint | controllers/machinedeletionremediation_controller.go:99-214 | a store that one fault-free pass leaves as it is stays so under any number of further passes (the polls during deletion, the passes after success) |
| Scenarios.RemediationRunsToSuccess | controllers/machinedeletionremediation_controller_test.go:136-155 | arm, classify and delete in three passes; poll until the Machine is gone; then succeed and stay succeeded |
| Scenarios.MisannotatedPassArms | controllers/machinedeletionremediation_controller_test.go:225-236 | the first pass arms the record whatever the Node's annotation holds |
| Scenarios.MalformedNodeAnnotationRetries | controllers/machinedeletionremediation_controller_test.go:225-236 | a Node annotation without "/" fails every later pass with InvalidValue naming the Node, writes nothing, and never leaves Processing |
| Scenarios.StoppedBeforeAnyLookup | controllers/machinedeletionremediation_controller_test.go:281-290 | a stop signal from the first pass ends the remediation as failed without reading the Node or the Machine |

## Left out

- The Kubernetes client, the API server and the informer cache are replaced by the `Cluster` store. Each read returns the stored value and each update writes it, except that a delete only marks the Machine (next line). Any call may be made to fail with an injected error. Watches, caching lag and resource versions are not modelled.
- Cluster.DeleteMachineOp: a delete always leaves the Machine stored with its deletion mark set, as for a Machine that carries a finalizer. A Machine without finalizers, which the API server removes at once (as in the controller test's `verifyMachineIsDeleted`), is not modelled; the removal is a separate step outside the pass (`Scenarios.RemediationRunsToSuccess` takes it between its polls and the final pass). `Properties.OnlyTheDeletedMachineChanges` ("only by marking") and `Properties.DeletionInFlightPolls` rest on this choice.
- Logging and the log messages are not modelled. `getMachineStatusPhase` only feeds a log line, so the pass does not call it; it is modelled on its own as `MachineFields.GetMachineStatusPhase`.
- Condition timestamps (LastTransitionTime) and ObservedGeneration are not modelled, because they depend on the clock and on the API server.
- Time itself is left out: the requeue delays are the three values the controller uses (none, one second, thirty seconds).
- Concurrency is left out: one pass runs at a time and nothing else writes the store during a pass. The race between the binding update and other edits of the record is covered only by the injected conflict error.
- SetupWithManager, the RBAC markers, the metrics and the manager wiring are not part of this model, because they configure the runtime rather than the pass.
- A record whose annotation map is nil and one whose map is empty are the same value here: both read as "no annotations".
- The client refreshing the in-memory object from the server's reply after `Update` is not modelled; the model keeps what was sent, which the server stores unchanged.
- Machine metadata (owner references and the deletion timestamp) is typed rather than read through the unstructured accessors, as the source's typed getters do. Only spec and status go through the `Unstructured` tree.
- The value of the health checker's stop annotation key comes from a shared medik8s library that is not part of this model. It is written out as a constant.
- The error values keep their kind and the names they carry, not their formatted message text.
- Scheduling between passes (the controller runtime's requeue and backoff) is not modelled. `Scenarios.Run` chains passes back to back with no faults.
