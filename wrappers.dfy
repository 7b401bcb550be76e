/** Failure-compatible wrappers used by the slider model. */
module Wrappers {

  /** A value that may be absent (JavaScript's `null` where a value is optional). */
  datatype Option<+T> = None | Some(value: T)

  /** The outcome of an operation that either yields a value or throws. */
  datatype Result<+R, +E> = Success(value: R) | Failure(error: E)

  /** The outcome of an operation that yields nothing or throws. */
  datatype Outcome<+E> = Pass | Fail(error: E)
}
