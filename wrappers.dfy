/** Failure-carrying values shared by every module of the model. */
module Wrappers {

  /** A value that may be absent (a Go map lookup, a nil reference). */
  datatype Option<+T> = None | Some(value: T)

  /** A Go `(T, error)` pair: either a value or an error message. */
  datatype Result<+T> = Ok(value: T) | Err(msg: string)
}
