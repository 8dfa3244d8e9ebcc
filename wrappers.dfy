/** Optional values and results with an error, shared by the cache and the market-data client. */
module Wrappers {

  /** A value that may be absent: the source's `T | null` and its optional provider fields. */
  datatype Option<+T> = None | Some(value: T)

  /** The outcome of an operation that either returns a value or throws an error. */
  datatype Result<+R, +E> = Success(value: R) | Failure(error: E)
}
