/** Option and Result, the failure-carrying values used across the model. */
module Wrappers {

  /** Python's `X | None`. */
  datatype Option<+T> = None | Some(value: T)

  /** A call that either returns a value or raises an error. */
  datatype Result<+T, +E> = Ok(value: T) | Err(error: E)
}
