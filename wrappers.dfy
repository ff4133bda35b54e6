/** Failure-compatible wrappers shared by the other modules. */
module Wrappers {

  /** An optional value: Python's `None` or a present value. */
  datatype Option<+T> = None | Some(value: T)

  /** The outcome of an operation that can raise: a value or the reason it failed. */
  datatype Result<+T, +E> = Ok(value: T) | Err(error: E)
}
