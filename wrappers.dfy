/** Small failure-aware datatypes shared by the other modules. */
module Wrappers {

  /** A value that may be absent, such as an HTML data attribute that was never set. */
  datatype Option<T> = None | Some(value: T)

  /** The outcome of a handler that either produces a value or stops with an error. */
  datatype Result<T, E> = Success(value: T) | Failure(error: E)
}
