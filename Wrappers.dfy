/** Option and Result, the failure-carrying values used across the model. */
module Wrappers {

  /** A value that may be absent (a C# nullable, or an OS call that can fail). */
  datatype Option<+T> = None | Some(value: T)

  /** The value of an operation, or the exception it throws. */
  datatype Result<+R, +E> = Success(value: R) | Failure(error: E)
}
