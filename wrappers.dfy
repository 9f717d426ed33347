/** Option and Result, the two failure-carrying shapes the model needs. */
module Wrappers {

  /** A Java reference that may be null: `None` is null. */
  datatype Option<+T> = None | Some(value: T)

  /** The value of a call that either returns or throws. */
  datatype Result<+T, +E> = Success(value: T) | Failure(error: E)
}
