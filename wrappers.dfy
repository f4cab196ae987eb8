/** Optional values and results with an error, shared by the other modules. */
module Wrappers {

  /** A value that may be absent: an unset environment variable, a URL that does not parse. */
  datatype Option<+T> = None | Some(value: T)

  /** The outcome of an operation that may throw: `Failure` carries what was thrown. */
  datatype Result<+R, +E> = Success(value: R) | Failure(error: E)
}
