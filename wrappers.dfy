/** Option and Result: Java's nullable references and thrown exceptions, made explicit. */
module Wrappers {

  /** A nullable reference: None stands for Java's null. */
  datatype Option<+T> = None | Some(value: T)

  /** The outcome of a call that may throw: Failure carries the exception's description. */
  datatype Result<+T, +E> = Success(value: T) | Failure(error: E)
}
