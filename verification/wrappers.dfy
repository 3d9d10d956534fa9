/** Option and Result, the two failure-carrying shapes the model uses. */
module Wrappers {

  /** A value that may be absent: an unset environment variable, a missing argument. */
  datatype Option<T> = None | Some(value: T)

  /** The outcome of a step that can be rejected with an error value. */
  datatype Result<T, E> = Success(value: T) | Failure(error: E)
}
