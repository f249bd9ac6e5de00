/** Failure-compatible wrappers used by the discovery model. */
module Wrappers {

  /** A value that may be absent; stands for a Java reference that may be null. */
  datatype Option<+T> = None | Some(value: T)

  /** Either a value or the error the operation raised. */
  datatype Result<+R, +E> = Success(value: R) | Failure(error: E)

  /** An operation that returns nothing or raises an error. */
  datatype Outcome<+E> = Pass | Fail(error: E)
}
