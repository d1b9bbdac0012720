/** Shapes shared by the whole model: a value that Go may leave nil, and the
    outcome of a smart constructor that returns either a value or an error. */
module Outcomes {

  /** A Go pointer that may be nil: `None` is nil. */
  datatype Option<T> = None | Some(value: T)

  /** A constructor that returns `(*T, nil)` or `(nil, err)`. */
  datatype Result<T, E> = Ok(value: T) | Err(error: E)
}
