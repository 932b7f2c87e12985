/** Failure-carrying result types used for the compiler's error paths. */
module Wrappers {

  datatype Option<+T> = None | Some(value: T)

  datatype Result<+R, +E> = Success(value: R) | Failure(error: E)

  /** Outcome of an operation that only changes state: it passes or fails with an error. */
  datatype Outcome<+E> = Pass | Fail(error: E)
}
