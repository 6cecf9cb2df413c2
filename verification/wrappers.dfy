/** Option and Result, the two failure-carrying shapes used throughout the model. */
module Wrappers {

  /** A value that may be absent (Go's nil pointer or nil interface). */
  datatype Option<+T> = None | Some(value: T)

  /** A value or an error (Go's `(T, error)` return pair). */
  datatype Result<+T, +E> = Success(value: T) | Failure(error: E)
}
