/** Failure-carrying return values: the model's stand-in for thrown errors,
    raised exceptions and values that may be absent (`undefined`, `nil`, `NaN`). */
module Wrappers {

  datatype Option<+T> = None | Some(value: T)

  datatype Result<+R, +E> = Success(value: R) | Failure(error: E)
}
