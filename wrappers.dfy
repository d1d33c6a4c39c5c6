/** Failure-carrying values used in place of the recipe's exceptions. */
module Wrappers {

  /** A value that may be absent (Python's `None`). */
  datatype Option<+T> = None | Some(value: T)

  /** Either a computed value or the error that a step raised. */
  datatype Result<+T, +E> = Success(value: T) | Failure(error: E)

  /** A step that produces nothing but may raise an error. */
  datatype Outcome<+E> = Pass | Fail(error: E)
}
