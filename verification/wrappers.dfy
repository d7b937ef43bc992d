/** Failure-compatible wrappers used throughout the model. */
module Wrappers {

  /** A value that may be absent (JavaScript `undefined`). */
  datatype Option<+T> = None | Some(value: T)

  /** A computation that either succeeds or fails with an error value. */
  datatype Result<+T, +E> = Success(value: T) | Failure(error: E)
}
