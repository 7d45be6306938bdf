/** Failure-compatible wrappers used across the model. */
module Wrappers {

  /** An optional value. */
  datatype Option<+T> = None | Some(value: T)

  /** The outcome of an operation that can throw: a value or the error it threw. */
  datatype Result<+T, +E> = Success(value: T) | Failure(error: E)
}
