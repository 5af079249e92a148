/** Option and Result, the failure-carrying wrappers used across the model. */
module Wrappers {

  /** A value that may be absent: Ruby's `nil` in a slot that may hold one. */
  datatype Option<+T> = None | Some(value: T)

  /** The outcome of a step that may raise: `Failure` stands for the exception. */
  datatype Result<+T, +E> = Success(value: T) | Failure(error: E)
}
