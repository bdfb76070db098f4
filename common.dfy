// Result wrappers and the error values a reconcile pass can report.

module Wrappers {
  datatype Option<+T> = None | Some(value: T)

  datatype Result<+T, +E> = Success(value: T) | Failure(error: E)
}

module Errors {
  /** What the API server answers instead of success. */
  datatype ApiError = NotFound | Conflict | Unavailable

  /**
   * The errors the reconciler builds or passes on. Each variant stands for
   * one error constructor of the controller; the wording of the messages is
   * not modelled, only which error it is and what it names.
   */
  datatype Error =
    | Api(cause: ApiError)                                 // a client call failed
    | NoAnnotations(node: string)                          // the Node has no annotation map
    | NoMachineAnnotation(node: string)                    // the Node's machine annotation is missing or empty
    | InvalidValue(node: string)                           // a "<namespace>/<name>" value does not split in two
    | BadBinding(remediation: string, value: string, inner: Error) // the record's binding annotation is malformed
    | UnknownReason(reason: string)                        // the condition tracker got a reason it does not know
    | FieldAccess(path: seq<string>)                       // a schema-less field has the wrong type
    | SaveFailed(failure: ApiError)                        // writing the binding annotation failed
    | Aggregate(errors: seq<Error>)                        // several errors folded together

  /** True of exactly the errors the API server reports as "not found". */
  predicate IsNotFound(e: Error) {
    e == Api(NotFound)
  }
}
