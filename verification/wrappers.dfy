/** Failure-carrying datatypes shared by the other modules. */
module Wrappers {

  /** A value that may be missing. */
  datatype Option<+T> = None | Some(value: T)

  /** Either a value or an error; stands for a PHP call that returns or throws. */
  datatype Result<+R, +E> = Success(value: R) | Failure(error: E)
}
