/** Option and Result values used where the Go code returns `(value, ok)` or `(value, error)`. */
module Common {

  datatype Option<+T> = None | Some(value: T)

  /** A Go `(value, error)` pair: either a value or the error's message. */
  datatype Result<+T> = Ok(value: T) | Err(msg: string)
}
