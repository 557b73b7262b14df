/** Optional values and results that stand for JavaScript's `null` returns and thrown errors. */
module Wrappers {

  datatype Option<+T> = None | Some(value: T)

  /** `Err` carries the message of the error that JavaScript code would throw. */
  datatype Result<+T, +E> = Ok(value: T) | Err(error: E)
}
