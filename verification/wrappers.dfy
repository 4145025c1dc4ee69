/** Failure-compatible wrappers used by the validator: a JavaScript value
    that may be `undefined`, and a call that either returns or throws. */
module Wrappers {

  datatype Option<+T> = None | Some(value: T)

  datatype Result<+T, +E> = Success(value: T) | Failure(error: E)
}
