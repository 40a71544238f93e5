/** Failure-carrying values used throughout the model: `Option` stands for a
    JavaScript value that may be `undefined`/`null`, `Result` for a computation
    that may throw (or a promise that may reject). */
module Wrappers {

  datatype Option<+T> = None | Some(value: T)

  datatype Result<+T, +E> = Success(value: T) | Failure(error: E)
}
