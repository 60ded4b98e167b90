/** Failure-carrying wrappers shared by the model's modules. */
module Results {

  datatype Option<+T> = None | Some(value: T)

  /** An operation that either yields a value or raises an error (a Java exception). */
  datatype Result<+T, +E> = Ok(value: T) | Err(error: E)
}
