/** Failure-compatible wrappers: an optional value, a result that may carry an error,
    and a pass/fail outcome for operations that return nothing. */
module Wrappers {

  datatype Option<+T> = None | Some(value: T)

  datatype Result<+R, +E> = Success(value: R) | Failure(error: E)

  datatype Outcome<+E> = Pass | Fail(error: E)
}
