/** Small result types shared by the other modules. */
module Wrappers {

  /** A nullable database column, or the outcome of a `.first()` query. */
  datatype Option<+T> = None | Some(value: T)

  /** The outcome of an operation that may raise. */
  datatype Result<+T, +E> = Ok(value: T) | Err(error: E)
}
