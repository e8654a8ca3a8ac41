/** Optional values and results with an error channel, used for the
    dashboard's optional record fields and for failures it reports. */
module Wrappers {

  /** A field that may be absent (`undefined` on the wire). */
  datatype Option<+T> = None | Some(value: T)

  /** The outcome of an operation that can fail with an error of type `E`. */
  datatype Result<+R, +E> = Success(value: R) | Failure(error: E)
}
