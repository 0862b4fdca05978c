/** Option and Result, used across the model. */
module Wrappers {

  /** A value that may be absent (PHP's `null` where the source tolerates it). */
  datatype Option<+T> = None | Some(value: T)

  /** Either a value or the reason the source would have stopped with a fatal error. */
  datatype Result<+R, +E> = Success(value: R) | Failure(error: E)
}
