/** Option and Result, the two failure-carrying shapes the service is built from. */
module Wrappers {

  datatype Option<+T> = None | Some(value: T)

  /** The right/left of an Either: `Success` carries the value, `Failure` the error. */
  datatype Result<+T, +E> = Success(value: T) | Failure(error: E)
}
