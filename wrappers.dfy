/** Failure-compatible wrappers used by the cart transformation model. */
module Wrappers {

  /** A value that may be absent: Python's `None` versus a present value. */
  datatype Option<+T> = None | Some(value: T)

  /** The outcome of a whole run: rows, or the exception that aborted it. */
  datatype Result<+T, +E> = Success(value: T) | Failure(error: E)
}
