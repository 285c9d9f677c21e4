/** Option, Result and Outcome: the values that stand for Java's null references and thrown exceptions. */
module Wrappers {

  /** A reference that may be null. */
  datatype Option<+T> = None | Some(value: T)

  /** A computation that yields a value or raises an error. */
  datatype Result<+R, +E> = Success(value: R) | Failure(error: E)

  /** A `void` computation that completes normally or raises an error. */
  datatype Outcome<+E> = Pass | Fail(error: E)
}
