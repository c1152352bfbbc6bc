/** Failure-carrying wrappers shared by the model. */
module Base {

  /** A value that may be absent (a nullable field, a query that finds nothing). */
  datatype Option<T> = None | Some(value: T)

  /** The outcome of an operation that can throw: its value, or the error it throws. */
  datatype Result<T, E> = Ok(value: T) | Err(error: E)
}
