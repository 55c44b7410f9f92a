/** Explicit outcomes standing in for the exceptions the hooks throw or catch. */
module Outcomes {

  /** A value, or the error that prevented computing it. */
  datatype Result<+T, +E> = Success(value: T) | Failure(error: E)

  /** An operation that either completed or failed with an error. */
  datatype Outcome<+E> = Pass | Fail(error: E)
}
