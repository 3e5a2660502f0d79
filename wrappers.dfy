/** Optional values and success-or-error results, the stock wrappers the rest of the model uses. */
module Wrappers {

  /** Swift's `Optional`: `nil` or a value. */
  datatype Option<+T> = None | Some(value: T)

  /** The outcome of a Swift `throws` function: a returned value or a thrown error. */
  datatype Result<+T, +E> = Success(value: T) | Failure(error: E)
}
