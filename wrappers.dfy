/** Failure-compatible wrappers: an optional value, and the outcome of an
    operation that either returns a value or throws an error value. */
module Wrappers {

  datatype Option<+T> = None | Some(value: T)

  /** `Failure(e)` stands for a JavaScript `throw e`. */
  datatype Result<+T, +E> = Success(value: T) | Failure(error: E)
}
