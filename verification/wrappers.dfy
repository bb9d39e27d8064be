/** The two shapes that Go's multi-value returns take in this model. */
module Wrappers {

  /** A value that may be absent: a decoder that failed, a URL that did not parse. */
  datatype Option<+T> = None | Some(value: T)

  /** A value or the error returned in its place (Go's `(T, error)`). */
  datatype Result<+T, +E> = Ok(value: T) | Err(error: E)
}
