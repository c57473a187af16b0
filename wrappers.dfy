/** Option and Result values shared by the modules of the model. */
module Wrappers {

  datatype Option<+T> = None | Some(value: T)

  /** A Success value, or the error that made the program stop. */
  datatype Result<+R, +E> = Success(value: R) | Failure(error: E)
}
