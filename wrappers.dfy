/** Option and Result, used where the source has `null` and exceptions. */
module Wrappers {

  /** `None` stands for a Java `null` reference. */
  datatype Option<+T> = None | Some(value: T)

  /** `Failure` stands for an exception thrown to the caller. */
  datatype Result<+R, +E> = Success(value: R) | Failure(error: E)
}
