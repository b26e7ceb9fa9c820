/** Optional values and results with an error, used for the lookups and
    failures of the sanitizer. */
module Wrappers {

  datatype Option<+T> = None | Some(value: T)

  datatype Result<+T, +E> = Success(value: T) | Failure(error: E)
}
