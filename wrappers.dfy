/** Option and Result, the two failure-carrying types the pipeline is written with. */
module Wrappers {

  /** A value that may be absent: a failed backend call, a missing brace, a failed parse. */
  datatype Option<+T> = None | Some(value: T)

  /** Either a value or the reason it could not be produced. */
  datatype Result<+R, +E> = Success(value: R) | Failure(error: E)
}
