/** Optional values and results with an error, used wherever the JavaScript
    source has `null`/`undefined` or throws. */
module Wrappers {

  datatype Option<+T> = None | Some(value: T)

  datatype Result<+R, +E> = Success(value: R) | Failure(error: E)
}
