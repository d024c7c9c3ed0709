/** Shared vocabulary: bytes as stored in a Node-style `Buffer`, and the
    optional / fallible results the rest of the model returns. */
module Common {

  /** One cell of a byte buffer: an unsigned 8-bit value. */
  type Byte = b: int | 0 <= b < 256

  /** A value that may be absent. */
  datatype Option<+T> = None | Some(value: T)

  /** A value, or the error that was thrown instead of producing it. */
  datatype Result<+T, +E> = Ok(value: T) | Err(error: E)
}
