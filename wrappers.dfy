/** Option and Result, the failure-carrying values used across the model. */
module Wrappers {

  datatype Option<+T> = None | Some(value: T)

  /** A value or the error a Go call returned beside it. */
  datatype Result<+T> = Success(value: T) | Failure(error: string)
}
