/** Option and Result, the shapes in which the client reports absence and failure. */
module Wrappers {

  /** A value that may be missing: a Go pointer that may be nil. */
  datatype Option<+T> = None | Some(value: T)

  /** A value or the error that took its place: Go's `(T, error)` return pair. */
  datatype Result<+T, +E> = Success(value: T) | Failure(error: E)
}
