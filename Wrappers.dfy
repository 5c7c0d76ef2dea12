/** Option, Result and Outcome: the null, exception and pass/fail results of the Java code. */
module Wrappers {

  /** A Java reference that may be null, or a java.util.Optional. */
  datatype Option<+T> = None | Some(value: T)

  /** A value or the exception that was thrown instead. */
  datatype Result<+R, +E> = Success(value: R) | Failure(error: E)

  /** A check that either passes or throws. */
  datatype Outcome<+E> = Pass | Fail(error: E)
}
