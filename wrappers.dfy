/** Failure-carrying values shared by the modules of the model. */
module Wrappers {

  /** A value that may be absent: JavaScript's null and Python's None. */
  datatype Option<+T> = None | Some(value: T)

  /** The outcome of an operation that may raise. */
  datatype Result<+T, +E> = Success(value: T) | Failure(error: E)
}
