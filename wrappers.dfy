/** Optional values and results shared by the model. */
module Wrappers {

  /** An optional value: an absent form field, a query that matched nothing. */
  datatype Option<+T> = None | Some(value: T)

  /** The outcome of a handler: the value it produces or the error it reports. */
  datatype Result<+R, +E> = Success(value: R) | Failure(error: E)
}
