/** Failure-carrying result types shared by the model: a Python `None` is `None`, a raised
    exception is `Failure`. */
module Wrappers {

  datatype Option<+T> = None | Some(value: T)

  datatype Result<+T, +E> = Success(value: T) | Failure(error: E)
}
