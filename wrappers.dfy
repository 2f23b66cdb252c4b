/** Option and Result, the two failure-carrying datatypes the model uses for
    Swift optionals and for `throws`. */
module Wrappers {

  datatype Option<+T> = None | Some(value: T)

  datatype Result<+R, +E> = Success(value: R) | Failure(error: E)
}
