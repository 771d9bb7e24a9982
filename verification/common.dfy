/** Types shared by the encoders: Go's int64, optional values, and the
    (value, error) pair that every Go function in the core returns. */
module Common {

  /** Go's `int64`. */
  newtype int64 = x: int | -0x8000_0000_0000_0000 <= x < 0x8000_0000_0000_0000

  datatype Option<+T> = None | Some(value: T)

  /** A Go `error`: only its message is observable to callers. */
  datatype Error = Error(message: string)

  /** A Go `(T, error)` return: exactly one of a value or a non-nil error. */
  datatype Result<+T> = Ok(value: T) | Err(error: Error)
}
