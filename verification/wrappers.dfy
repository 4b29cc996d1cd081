/** Failure-carrying values used in place of Python's `None` and raised exceptions. */
module Wrappers {

  /** A value that may be absent, like a Python argument that is `None`. */
  datatype Option<+T> = None | Some(value: T)

  /** Either a computed value or the error that aborted the computation. */
  datatype Result<+T, +E> = Ok(value: T) | Err(error: E)
}
