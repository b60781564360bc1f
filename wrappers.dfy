/** Optional values and results shared by the other modules. */
module Wrappers {

  /** A value that may be absent, as JavaScript's `null` / `undefined`. */
  datatype Option<+T> = None | Some(value: T)

  /** A value or the error that took its place. */
  datatype Result<+T, +E> = Success(value: T) | Failure(error: E)
}
