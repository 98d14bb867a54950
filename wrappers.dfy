/** The optional-value and outcome wrappers used across the model. */
module Wrappers {

  /** A value that may be missing (Python's `None`). */
  datatype Option<+T> = None | Some(value: T)

  /** The outcome of a computation that can raise instead of returning. */
  datatype Result<+T, +E> = Ok(value: T) | Err(error: E)
}
