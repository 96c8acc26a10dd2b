/** Absent-or-present values and success-or-failure outcomes. */
module Wrappers {

  /** A value that may be missing (JavaScript's null or undefined). */
  datatype Option<+T> = None | Some(value: T)

  /** The outcome of an operation that can throw. */
  datatype Result<+R, +E> = Success(value: R) | Failure(error: E)
}
