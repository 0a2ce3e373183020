/** Optional values and results with an error, for inputs the pages may lack
    and saves they may refuse. */
module Wrappers {

  datatype Option<+T> = None | Some(value: T)

  datatype Result<+R, +E> = Success(value: R) | Failure(error: E)
}
