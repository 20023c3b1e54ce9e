/** Optional values and fallible results, shared by every module of the model. */
module Wrappers {

  /** A value that may be absent: Swift's `T?`, TypeScript's `T | null`. */
  datatype Option<+T> = None | Some(value: T)

  /** The outcome of an operation that returns a value or throws an error. */
  datatype Result<+R, +E> = Success(value: R) | Failure(error: E)
}
