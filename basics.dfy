/** Failure-carrying wrappers shared by the whole model. */
module Basics {

  /** A value that may be absent (a missing row, a failed query). */
  datatype Option<T> = None | Some(value: T)

  /** The outcome of an operation that returns either a value or an error. */
  datatype Result<T, E> = Ok(value: T) | Err(error: E)
}
