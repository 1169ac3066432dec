/** Option and Result values: the model's stand-ins for JavaScript's
    null/undefined and for the error responses the routes send. */
module Wrappers {

  datatype Option<+T> = None | Some(value: T)

  datatype Result<+R, +E> = Success(value: R) | Failure(error: E)
}
