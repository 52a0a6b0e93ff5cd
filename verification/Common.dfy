/** Failure-carrying values shared by the models. */
module Common {

  /** A value that may be absent: a missing row, a null column, a failed call. */
  datatype Option<+T> = None | Some(value: T)

  /** The outcome of an operation that can raise; the error names the exception. */
  datatype Result<+T, +E> = Ok(value: T) | Err(error: E)
}
