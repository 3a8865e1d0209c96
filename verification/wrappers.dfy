/** Option and Result, shared by the other modules. */
module Wrappers {

  /** An optional value; `None` also stands for JavaScript's `undefined`. */
  datatype Option<+T> = None | Some(value: T)

  /** Either a value or an error message. */
  datatype Result<+R, +E> = Success(value: R) | Failure(error: E)
}
