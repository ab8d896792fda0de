/** Option and Result: the nil-or-value and the value-or-raised-error of the Ruby source. */
module Wrappers {

  datatype Option<+T> = None | Some(value: T)

  datatype Result<+R, +E> = Success(value: R) | Failure(error: E)
}
