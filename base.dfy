/** Failure-carrying values shared by the rest of the model. */
module Base {

  /** A value that may be absent (Python's `None`). */
  datatype Option<+T> = None | Some(value: T)

  /** The outcome of a call that may raise: a value, or the exception's text. */
  datatype Result<+T, +E> = Ok(value: T) | Err(error: E)
}
