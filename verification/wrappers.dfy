/** Optional values and results with an error channel, used for the nullable
    fields of the launcher's configuration and for its exceptions. */
module Wrappers {

  /** A value that may be absent (a Java `null`). */
  datatype Option<+T> = None | Some(value: T)

  /** The outcome of a step that may throw: its value, or the failure it raised. */
  datatype Result<+T, +E> = Success(value: T) | Failure(error: E)
}
