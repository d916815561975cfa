/** Option and Result, used wherever the modelled code returns None or raises. */
module Wrappers {

  datatype Option<+T> = None | Some(value: T)

  /** A computation that either yields a value or raises `error`. */
  datatype Result<+T, +E> = Success(value: T) | Failure(error: E)
}
