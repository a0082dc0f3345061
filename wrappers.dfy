/** Option and Result: Java's nullable references and thrown exceptions, as values. */
module Wrappers {

  /** `None` stands for a Java `null` reference. */
  datatype Option<+T> = None | Some(value: T)

  /** `Failure` stands for an exception thrown out of a Java method. */
  datatype Result<+R, +E> = Success(value: R) | Failure(error: E)

  /** The outcome of a Java `void` method: it returns, or it throws `error`. */
  datatype Outcome<+E> = Pass | Fail(error: E)
}
