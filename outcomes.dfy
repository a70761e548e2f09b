/** Failure-carrying results shared by every module of the model. */
module Outcomes {

  /** A value that may be absent (a nullable column, a missing request field). */
  datatype Option<+T> = None | Some(value: T)

  /** The outcome of an operation that either succeeds with a value or is rejected with a reason. */
  datatype Result<+T, +E> = Ok(value: T) | Err(error: E)
}
