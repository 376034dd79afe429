/** Option and Result values shared by the other modules. */
module Wrappers {

  datatype Option<+T> = None | Some(value: T)

  /** An operation that either succeeds with a value or fails the way the
      Python code raises an exception. */
  datatype Result<+R, +E> = Success(value: R) | Failure(error: E)
}
