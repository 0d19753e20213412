/** Option and Result, the two failure-carrying wrappers the model uses. */
module Wrappers {

  /** A value that may be absent (Python's `None` for a whole parameter). */
  datatype Option<+T> = None | Some(value: T)

  /** Either a computed value or the error the client raises instead. */
  datatype Result<+R, +E> = Success(value: R) | Failure(error: E)
}
