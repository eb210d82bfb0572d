/** Optional values and results, used for Java's nullable references and thrown exceptions. */
module Wrappers {

  datatype Option<+T> = None | Some(value: T)

  /** A call that either returns a value or throws an exception. */
  datatype Result<+T, +E> = Success(value: T) | Failure(error: E)
}
