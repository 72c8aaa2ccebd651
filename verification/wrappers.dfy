/** The Option and Result datatypes shared by the payload mapper and the plugin. */
module Wrappers {

  /** An optional value: what a decoder yields, `None` when the bytes do not decode. */
  datatype Option<+T> = None | Some(value: T)

  /** Either a value or an error: the `(value, error)` returns of the Go code. */
  datatype Result<+R, +E> = Success(value: R) | Failure(error: E)
}
