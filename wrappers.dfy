/** Optional values and results with an error, used for Swift optionals and `throws`. */
module Wrappers {

  /** A Swift optional: `nil` is None. */
  datatype Option<+T> = None | Some(value: T)

  /** The outcome of a throwing call: a value, or the error it throws. */
  datatype Result<+R, +E> = Success(value: R) | Failure(error: E)
}
