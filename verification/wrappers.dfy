/** Failure-carrying result types shared by the model's modules. */
module Wrappers {

  /** A value that may be absent, as Python's `None`. */
  datatype Option<+T> = None | Some(value: T)

  /** The outcome of an operation that may raise: a value, or the error it raises. */
  datatype Result<+R, +E> = Success(value: R) | Failure(error: E)
}
