/** Optional values and results with an error case, used by every module of the model. */
module Wrappers {

  /** A value that may be absent (`undefined`, `null`, a lookup that found nothing). */
  datatype Option<+T> = None | Some(value: T)

  /** The outcome of an operation that either returns a value or throws. */
  datatype Result<+R, +E> = Success(value: R) | Failure(error: E)
}
