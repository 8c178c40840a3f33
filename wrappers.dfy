/** Option and Result, the failure-carrying values used throughout the model. */
module Wrappers {

  /** A value that may be absent: the model's counterpart of a C# null reference. */
  datatype Option<+T> = None | Some(value: T)

  /** The outcome of an operation that may throw: Failure carries the exception's kind. */
  datatype Result<+T, +E> = Success(value: T) | Failure(error: E)
}
