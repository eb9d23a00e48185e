/** Failure-carrying values standing in for the exceptions and `None` results of the program. */
module Wrappers {

  /** A value or its absence (Python's `None`). */
  datatype Option<+T> = None | Some(value: T)

  /** A value, or the error that was raised instead of returning it. */
  datatype Result<+T, +E> = Ok(value: T) | Err(error: E)

  /** A check that passes, or the error it raises. */
  datatype Outcome<+E> = Pass | Fail(error: E)
}
