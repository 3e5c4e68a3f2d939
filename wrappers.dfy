/** Failure-carrying wrappers shared by the model: Swift optionals and `throws`. */
module Wrappers {

  /** A Swift optional. */
  datatype Option<+T> = None | Some(value: T)

  /** The outcome of a Swift call that `throws`: a value, or the error it threw. */
  datatype Result<+R, +E> = Success(value: R) | Failure(error: E)
}
