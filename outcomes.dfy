/** Failure-carrying values that stand in for Go's `(T, error)` and `error` returns. */
module Outcomes {

  /** A value that may be absent. */
  datatype Option<+T> = None | Some(value: T)

  /** A Go `(T, error)` pair: either a value or an error, never both. */
  datatype Result<+T, +E> = Success(value: T) | Failure(error: E)

  /** A Go `error` return: `nil` (Pass) or an error value (Fail). */
  datatype Outcome<+E> = Pass | Fail(error: E)
}
