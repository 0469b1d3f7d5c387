/** Result types shared by the service models, and the errors the services raise. */
module Common {

  datatype Option<T> = None | Some(value: T)

  datatype Result<T, E> = Ok(value: T) | Err(error: E)

  /** The outcome of an operation that returns nothing but may raise. */
  datatype Outcome<E> = Pass | Fail(error: E)

  /** The exceptions the orchestration layer raises, one constructor per raise site. */
  datatype ServiceError =
    | CapacityExceeded(maxWorkers: nat)        // "Maximum number of workers (N) reached"
    | InitializationFailure(reason: string)    // the delegate could not be constructed
    | NotReady(status: string)                 // "Worker not ready. Status: ..."
    | AgentNotInitialized                      // "Agent service not initialized"
    | CleanupFailure(reason: string)           // a resource release raised during cleanup
    | InvalidSessionId(id: string)             // the id is not UUID text
    | SessionNotFound(id: string)              // "Session ... not found"
    | AttributeMissing(name: string)           // reading a field the record does not declare
}
