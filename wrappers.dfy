/** Option and Result, used for JavaScript values that may be null and for
    operations that either produce a value or throw an error with a message. */
module Wrappers {

  /** A value that may be `null`/`undefined` (None) or present (Some). */
  datatype Option<+T> = None | Some(value: T)

  /** The settled outcome of a promise: resolved with a value, or rejected
      with an error carrying a message. */
  datatype Result<+R, +E> = Ok(value: R) | Err(error: E)
}
