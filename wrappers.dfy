/** Failure-compatible wrappers shared by the other modules. */
module Wrappers {

  /** An optional value: JavaScript's `undefined` result is `None`. */
  datatype Option<+T> = None | Some(value: T)

  /** Either a value or the error the source would throw. */
  datatype Result<+R, +E> = Success(value: R) | Failure(error: E)
}
