/** Failure-carrying values used in place of Python's None and exceptions. */
module Wrappers {

  datatype Option<+T> = None | Some(value: T)

  /** The value of a call that either returns or raises. */
  datatype Result<+T, +E> = Success(value: T) | Failure(error: E)

  /** The value of a call that returns nothing or raises. */
  datatype Outcome<+E> = Pass | Fail(error: E)
}
