/** Optional values and results with an error, as the resolver's functions return them. */
module Wrappers {

  /** A value that may be absent. */
  datatype Option<+T> = None | Some(value: T)

  /** Either a value or the error that prevented computing it. */
  datatype Result<+R, +E> = Success(value: R) | Failure(error: E)
}
