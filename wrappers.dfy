/** Failure-carrying values used in place of Java's null and exceptions. */
module Wrappers {

  /** A value that may be absent (a nullable reference in the source). */
  datatype Option<+T> = None | Some(value: T)

  /** An operation that returns a value or fails with an error (a thrown exception in the source). */
  datatype Result<+R, +E> = Success(value: R) | Failure(error: E)

  /** An operation that either completes or fails with an error, returning nothing. */
  datatype Outcome<+E> = Pass | Fail(error: E)

  function Min(a: int, b: int): int
  {
    if a <= b then a else b
  }
}
