/** Small failure-compatible wrappers used across the model. */
module Wrappers {

  /** A value that may be absent: the model's stand-in for JavaScript's `null` / `undefined`. */
  datatype Option<+T> = None | Some(value: T)

  /** The settled state of a promise: fulfilled with a value or rejected with an error. */
  datatype Result<+R, +E> = Success(value: R) | Failure(error: E)
}
