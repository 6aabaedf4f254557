/** Option and Result datatypes used across the model: `Option` stands for
    a result that may be null, `Result` for a value-or-error outcome. */
module Wrappers {

  datatype Option<+T> = None | Some(value: T)

  datatype Result<+R, +E> = Success(value: R) | Failure(error: E)
}
