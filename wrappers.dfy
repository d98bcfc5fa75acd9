/** Failure-compatible results used by the model: a Python call that may
    find nothing (`str.index`, `re.search`) or may raise. */
module Wrappers {

  datatype Option<+T> = None | Some(value: T)

  datatype Result<+R, +E> = Success(value: R) | Failure(error: E)
}
