/** Optional values and success-or-failure results, the two shapes Go expresses
    with a nil pointer and with an `(value, error)` pair. */
module Wrappers {

  datatype Option<+T> = None | Some(value: T)

  datatype Result<+R, +E> = Success(value: R) | Failure(error: E)
}
