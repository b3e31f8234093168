/** Option and Result datatypes used throughout the model: an absent value
    (`Option`) and a value-or-error (`Result`), the latter standing for a
    JavaScript promise that either resolves or rejects. */
module Wrappers {

  datatype Option<+T> = None | Some(value: T)

  datatype Result<+R, +E> = Success(value: R) | Failure(error: E)
}
