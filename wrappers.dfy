/** Optional values and results with a failure, as used by the endpoint model. */
module Wrappers {

  /** A value that may be absent (an omitted argument). */
  datatype Option<+T> = None | Some(value: T)

  /** The outcome of a step that may fail with an error of type E. */
  datatype Result<+R, +E> = Success(value: R) | Failure(error: E)
}
