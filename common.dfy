/** Values shared by every module of the model: Go's `(value, error)` returns and byte buffers. */
module Common {

  /** A Go call's `(value, error)` pair, with exactly one side meaningful. */
  datatype Result<+T, +E> = Ok(value: T) | Err(error: E)

  datatype Option<+T> = None | Some(value: T)

  /** Go's `byte` (`uint8`). */
  type Byte = x: int | 0 <= x < 256

  /** A `[]byte` buffer: document contents, passwords, archive data. */
  type Bytes = seq<Byte>
}
