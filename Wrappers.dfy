/** Option and Result values, standing in for JavaScript's null/undefined and
    for the error path of a handler that alerts and returns early. */
module Wrappers {

  datatype Option<+T> = None | Some(value: T)

  datatype Result<+R, +E> = Success(value: R) | Failure(error: E)
}
