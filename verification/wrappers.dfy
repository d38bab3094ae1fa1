/** Optional values and results with an error, used by the controller model. */
module Wrappers {

  /** A value that may be absent; stands in for JavaScript's `undefined`/`null`. */
  datatype Option<+T> = None | Some(value: T)

  /** Either a value or an error describing why none could be produced. */
  datatype Result<+R, +E> = Success(value: R) | Failure(error: E)
}
