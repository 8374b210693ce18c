/** Failure-compatible wrappers shared by the model. */
module Wrappers {

  /** A value that may be absent; `None` stands for a Java `null` reference. */
  datatype Option<+T> = None | Some(value: T)

  /** The outcome of an operation that either returns a value or throws. */
  datatype Result<+T, +E> = Success(value: T) | Failure(error: E)
}
