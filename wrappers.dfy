/** Optional values and the outcome of an operation that can fail. */
module Wrappers {

  /** A value that may be absent: Python's `Optional[...]`, or SQL NULL. */
  datatype Option<+T> = None | Some(value: T)

  /** Either the value an operation returns or the error it raises. */
  datatype Result<+T, +E> = Success(value: T) | Failure(error: E)
}
