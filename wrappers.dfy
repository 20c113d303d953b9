/** Option and Result, the shapes of Go's `(value, error)` pairs. */
module Wrappers {

  datatype Option<T> = None | Some(value: T)

  /** A value, or the message of the Go `error` returned in its place. */
  datatype Result<T> = Ok(value: T) | Err(msg: string)
}
