/** Option and Result, the two failure-carrying value types used across the model. */
module Wrappers {

  datatype Option<+T> = None | Some(value: T)

  /** A Python call that either returns a value or raises; the error names the exception. */
  datatype Result<+R, +E> = Success(value: R) | Failure(error: E)
}
