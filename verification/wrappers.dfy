/** Option and Result: how the model writes "key absent" and "the call threw". */
module Wrappers {

  /** A value that may be absent (an optional key of a JSON object). */
  datatype Option<+T> = None | Some(value: T)

  /** The outcome of an operation that either returns a value or throws an error. */
  datatype Result<+T, +E> = Success(value: T) | Failure(error: E)
}
