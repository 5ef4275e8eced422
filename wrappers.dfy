/** The wrappers used across the model: an optional value and a value-or-error
    result. */
module Wrappers {

  /** A value that may be absent (JavaScript `undefined`/`null`). */
  datatype Option<+T> = None | Some(value: T)

  /** A value or the error that replaced it (a thrown exception, a failed parse). */
  datatype Result<+T, +E> = Ok(value: T) | Err(error: E)
}
