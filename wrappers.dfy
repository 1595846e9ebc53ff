/** Option and Result, the two failure-carrying shapes used across the model. */
module Wrappers {

  /** A value that may be missing: Python's `None` where a result is optional. */
  datatype Option<+T> = None | Some(value: T)

  /** A call that either returns a value or raises with an error value. */
  datatype Result<+T, +E> = Success(value: T) | Failure(error: E)
}
