/** Failure-compatible wrappers shared by the model: an optional value (a
    TypeScript `T | undefined`) and the outcome of an operation that may throw. */
module Wrappers {

  datatype Option<+T> = None | Some(value: T)

  /** `Failure` stands for a `ValidationError` thrown by the construct. */
  datatype Result<+T, +E> = Success(value: T) | Failure(error: E)
}
