/** Option and Result: JavaScript's `null` and the early-return error paths of the handlers. */
module Wrappers {

  /** `None` stands for JavaScript's `null`. */
  datatype Option<+T> = None | Some(value: T)

  /** The outcome of a check that either succeeds with a value or fails with a message. */
  datatype Result<+R, +E> = Ok(value: R) | Err(error: E)
}
