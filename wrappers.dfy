/** Option and Result, the two failure-carrying shapes the model needs.
    A Go `error` becomes the `Failure` case of a Result, carrying the error's text. */
module Wrappers {

  datatype Option<+T> = None | Some(value: T)

  datatype Result<+T> = Success(value: T) | Failure(error: string)
}
