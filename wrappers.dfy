/** Failure-compatible wrappers shared by every module of the model. */
module Wrappers {

  datatype Option<+T> = None | Some(value: T)

  /** The outcome of an operation that the source lets throw: a value or the error it raises. */
  datatype Result<+R, +E> = Success(value: R) | Failure(error: E)
}
