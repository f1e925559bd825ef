/** Failure-compatible wrappers shared by the model: an optional value (Python's
    `X | None`) and a result that is either a value or an error message. */
module Wrappers {

  datatype Option<+T> = None | Some(value: T)

  datatype Result<+R, +E> = Success(value: R) | Failure(error: E)
}
