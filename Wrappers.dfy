/** Optional values and results with an error, shared by the store and the schema. */
module Wrappers {

  /** A value that may be absent: an omitted request field, a `null` record field. */
  datatype Option<+T> = None | Some(value: T)

  /** The outcome of a validation: the normalised value, or the error that rejected it. */
  datatype Result<+R, +E> = Success(value: R) | Failure(error: E)
}
