/** Optional values and success-or-error results, shared by the other modules. */
module Wrappers {

  /** A value that may be absent (a missing JSON field, a record not found). */
  datatype Option<+T> = None | Some(value: T)

  /** The settled state of a promise: resolved with a value or rejected with an error. */
  datatype Result<+R, +E> = Success(value: R) | Failure(error: E)
}
