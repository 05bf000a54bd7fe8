/** Option and Result values for the error paths of the model. */
module Wrappers {

  /** A value that may be absent (Python's None). */
  datatype Option<+T> = None | Some(value: T)

  /** Either a value or the error raised in its place. */
  datatype Result<+T, +E> = Ok(value: T) | Err(error: E)
}
