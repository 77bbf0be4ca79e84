/** Failure-compatible wrappers shared by the model. */
module Wrappers {

  /** A value that may be missing: a JavaScript `null`/`undefined`, or a failed lookup. */
  datatype Option<+T> = None | Some(value: T)

  /** The outcome of an operation that can be rejected, with the reason. */
  datatype Result<+T, +E> = Ok(value: T) | Err(error: E)
}
