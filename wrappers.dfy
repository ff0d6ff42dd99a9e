/** Optional values and results with an error, used wherever the source has
    `undefined` fields or calls that can throw. */
module Wrappers {

  datatype Option<+T> = None | Some(value: T)

  datatype Result<+R, +E> = Success(value: R) | Failure(error: E)
}
