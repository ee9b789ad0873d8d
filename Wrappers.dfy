/** Option and Result: a missing value and an operation that may throw. */
module Wrappers {

  datatype Option<+T> = None | Some(value: T)

  /** The outcome of a call that either returns a value or throws an exception. */
  datatype Result<+T, +E> = Ok(value: T) | Err(error: E)
}
