/** Optional values and the error-or-value results every service returns. */
module Wrappers {

  datatype Option<+T> = None | Some(value: T)

  /** A Go `(value, error)` pair: either a value with a nil error, or the
      text of the error. */
  datatype Result<+T> = Ok(value: T) | Err(msg: string)

  /** The empty response models the delete operations return. */
  datatype Unit = Unit
}
