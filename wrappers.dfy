/** Failure-carrying containers shared by every module of the model. */
module Wrappers {

  /** A value that may be absent: `undefined`/`null` results of the source, or a missing entry. */
  datatype Option<+T> = None | Some(value: T)

  /** A computation that either produced a value or threw the given error. */
  datatype Result<+T, +E> = Success(value: T) | Failure(error: E)
}
