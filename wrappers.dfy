/** Failure-carrying result types used for the Go (value, error) returns of the model. */
module Wrappers {

  /** A value that may be absent (a Go nil pointer or interface). */
  datatype Option<+T> = None | Some(value: T)

  /** A value or the error that replaced it: Go's `(T, error)` pair. */
  datatype Result<+T, +E> = Success(value: T) | Failure(error: E)

  /** A bare Go `error` return: nil (Pass) or an error value (Fail). */
  datatype Outcome<+E> = Pass | Fail(error: E)
}
