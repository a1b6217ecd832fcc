// Outcomes of the services' asynchronous calls: a value, or the error the
// call throws (rejects with).

module Results {

  datatype Option<+T> = None | Some(value: T)

  /** What a thrown error carries: the message callers see, classified by its cause. */
  datatype Error =
    | NotFound(message: string)            // the referenced record does not exist
    | Forbidden(message: string)           // ownership or role check failed
    | Invalid(message: string)             // malformed input
    | TypeFault(message: string)           // a JavaScript TypeError raised by the code itself
    | Failed(message: string)              // a provider failure rethrown under a fixed message
    | StoreFault(status: int, message: string)  // an error response of the vector store, propagated

  datatype Result<+T> = Ok(value: T) | Err(error: Error)

  /** An awaited call with no interesting value. */
  datatype Outcome = Pass | Fail(error: Error)

  /** `error.status === 404` */
  predicate IsNotFoundStatus(e: Error)
  {
    e.StoreFault? && e.status == 404
  }
}
