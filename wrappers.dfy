/** Optional values and results with an error, used wherever the JavaScript
    code has `undefined`, an empty query result or a thrown exception. */
module Wrappers {

  datatype Option<+T> = None | Some(value: T)

  datatype Result<+R, +E> = Success(value: R) | Failure(error: E)
}
