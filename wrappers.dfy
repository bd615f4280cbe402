// Failure-carrying values: the scripts signal errors by raising and by
// storing None; the model returns these instead.
module Wrappers {

  datatype Option<+T> = None | Some(value: T)

  datatype Result<+T, +E> = Ok(value: T) | Err(error: E)
}
