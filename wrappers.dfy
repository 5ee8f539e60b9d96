/** Option and Result, the failure-carrying values the model uses for Python's
    `Optional[...]` results and for exceptions that reach a caller. */
module Wrappers {

  datatype Option<+T> = None | Some(value: T)

  datatype Result<+T, +E> = Success(value: T) | Failure(error: E)
}
