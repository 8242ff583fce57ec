/** Optional values and fallible results, used for Go's nil pointers and error returns. */
module Wrappers {

  /** A value that may be missing: a nil pointer or a nil map in the Go program. */
  datatype Option<+T> = None | Some(value: T)

  /** The outcome of an operation that either yields a value or fails with an error. */
  datatype Result<+T, +E> = Success(value: T) | Failure(error: E)
}
