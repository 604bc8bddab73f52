/** Failure-carrying wrappers shared by the domain modules: the model's stand-in for a thrown
    DomainError or a rejected promise. */
module Results {

  /** A value that may be absent. */
  datatype Option<+T> = None | Some(value: T)

  /** The result of an operation that either produces a value or fails with an error. */
  datatype Result<+T, +E> = Ok(value: T) | Err(error: E)

  /** The result of an operation that produces nothing but may fail with an error. */
  datatype Outcome<+E> = Pass | Fail(error: E)
}
