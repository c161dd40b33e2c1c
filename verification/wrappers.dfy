/** Optional values and results with an error, used for the absent "current status"
    and for a scoring step that can fail. */
module Wrappers {

  datatype Option<+T> = None | Some(value: T)

  datatype Result<+R, +E> = Success(value: R) | Failure(error: E)
}
