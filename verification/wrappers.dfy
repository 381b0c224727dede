/** Failure-compatible wrappers used across the model: an optional value
    (a JavaScript value that may be `undefined`/`null`) and a result that is
    either a value or a thrown error. */
module Wrappers {

  datatype Option<+T> = None | Some(value: T)

  datatype Result<+R, +E> = Success(value: R) | Failure(error: E)
}
