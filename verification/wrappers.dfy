/** Optional values and results with an error, used for the collaborators' outcomes. */
module Wrappers {

  /** A value that may be absent (a missing event field, an error that did not happen). */
  datatype Option<+T> = None | Some(value: T)

  /** The outcome of a call that either returns a value or throws an error. */
  datatype Result<+T, +E> = Success(value: T) | Failure(error: E)
}
