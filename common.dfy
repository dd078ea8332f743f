/** Failure-carrying values shared by both invoice flows. */
module Common {

  /** A Go value that may be absent, or a Go `error` that may be nil (`None`). */
  datatype Option<+T> = None | Some(value: T)

  /** A Go `(value, error)` pair where exactly one side is meaningful. */
  datatype Result<+T, +E> = Ok(value: T) | Err(error: E)
}
