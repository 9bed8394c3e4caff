/** Option and Result values and the byte type shared by every module of the model. */
module Wrappers {

  datatype Option<+T> = None | Some(value: T)

  /** The outcome of a Go call that returns `(T, error)`; the error is its message. */
  datatype Result<+T> = Ok(value: T) | Err(error: string)

  /** A Go `error` return: `None` stands for `nil`. */
  type Error = Option<string>

  /** A Go `byte`. Go strings indexed with `s[i]` are sequences of these. */
  type Byte = b: int | 0 <= b < 256
}
