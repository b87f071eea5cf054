/** Optional values (Go's nil pointers and nil slices) and results with an error
    (Go's `(value, error)` return pairs). */
module Wrappers {

  datatype Option<+T> = None | Some(value: T)

  datatype Result<+R, +E> = Success(value: R) | Failure(error: E)
}
