/** Optional values and results with an error value, shared by the data-lookup modules. */
module Wrappers {

  /** A value that may be absent: JavaScript's `undefined`/`null` next to a present value. */
  datatype Option<+T> = None | Some(value: T)

  /** The outcome of a lookup: a value, or the error message the page would show. */
  datatype Result<+R, +E> = Success(value: R) | Failure(error: E)
}
