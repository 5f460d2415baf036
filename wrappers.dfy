/** Failure-carrying values used for the Go functions that return `(value, error)`. */
module Wrappers {

  /** A value that may be absent; stands for a Go `error` that may be nil. */
  datatype Option<+T> = None | Some(value: T)

  /** Either a value or an error; stands for a Go `(value, error)` pair. */
  datatype Result<+R, +E> = Success(value: R) | Failure(error: E)
}
