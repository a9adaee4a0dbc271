/** Failure-carrying wrappers shared by the other modules. */
module Wrappers {

  /** A value that may be absent (Python's `None`). */
  datatype Option<+T> = None | Some(value: T)

  /** A computed value, or the exception that stopped the computation. */
  datatype Result<+T, +E> = Success(value: T) | Failure(error: E)

  /** A step that returns nothing on success, or the exception it raised. */
  datatype Outcome<+E> = Pass | Fail(error: E)
}
