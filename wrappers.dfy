/** Option and Result values used where the source returns `null` or throws. */
module Wrappers {

  datatype Option<+T> = None | Some(value: T)

  datatype Result<+T, +E> = Ok(value: T) | Err(error: E)

  /** A value thrown by JavaScript code: an `Error` object with its message, or anything else. */
  datatype Thrown = ErrorObject(message: string) | OtherValue
}
