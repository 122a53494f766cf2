/** Failure-carrying datatypes used across the model. */
module Wrappers {

  /** A value that may be missing: Python's `None` versus a present value. */
  datatype Option<+T> = None | Some(value: T)

  /** The outcome of an operation that the program can abort by raising an exception. */
  datatype Result<+T> = Success(value: T) | Failure(error: string)
}
