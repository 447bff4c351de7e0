/** Failure-carrying result types used for the exceptions the Python code raises. */
module Wrappers {

  datatype Option<+T> = None | Some(value: T)

  /** A value, or the exception that replaced it. */
  datatype Result<+T, +E> = Ok(value: T) | Err(error: E)

  /** Completion without a value: either it ran to the end, or it raised. */
  datatype Outcome<+E> = Pass | Fail(error: E)
}
