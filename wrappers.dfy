/** Failure-carrying values shared by the other modules: `Option` for a lookup
    that may find nothing, `Result` for an operation that may raise. */
module Wrappers {

  datatype Option<+T> = None | Some(value: T)

  datatype Result<+T, +E> = Success(value: T) | Failure(error: E)
}
