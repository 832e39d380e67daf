/** Optional values and results with an error, the shapes Go expresses as
    a nil-able value and an (x, error) pair. */
module Wrappers {

  datatype Option<+T> = None | Some(value: T)

  datatype Result<+R, +E> = Success(value: R) | Failure(error: E)
}
