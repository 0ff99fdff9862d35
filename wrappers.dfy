/** Option, Result and Outcome values standing in for Java's null references and exceptions. */
module Wrappers {

  /** A possibly-null reference: `None` plays the part of Java's `null`. */
  datatype Option<+T> = None | Some(value: T)

  /** The value of an operation that either returns or throws. */
  datatype Result<+R, +E> = Success(value: R) | Failure(error: E)

  /** The value of a `void` operation that either completes or throws. */
  datatype Outcome<+E> = Pass | Fail(error: E)
}
