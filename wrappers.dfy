/** Failure-compatible result types shared by the rest of the model. */
module Wrappers {

  /** A value that may be absent (Python `None`). */
  datatype Option<+T> = None | Some(value: T)

  /** A value or an error. */
  datatype Result<+T, +E> = Success(value: T) | Failure(error: E)

  /** Either normal completion or a raised exception carrying `error`. */
  datatype Outcome<+E> = Pass | Fail(error: E)
}
