/** Failure-carrying values: `Option` stands for a nullable reference, `Result` for
    a call that either returns a value or throws an exception. */
module Wrappers {

  datatype Option<+T> = None | Some(value: T)

  datatype Result<+T, +E> = Success(value: T) | Failure(error: E)
}
