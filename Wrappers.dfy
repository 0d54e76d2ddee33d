/** Java's Optional and thrown exceptions, as values. */
module Wrappers {

  /** An optional value: Java's Optional, or a reference that may be null. */
  datatype Option<+T> = None | Some(value: T)

  /** The outcome of a call that either returns a value or throws an exception. */
  datatype Result<+T, +E> = Success(value: T) | Failure(error: E)
}
