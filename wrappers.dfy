/** Result shapes used by the conversation model. */
module Wrappers {

  /** A value that may be absent (Python's `None`). */
  datatype Option<+T> = None | Some(value: T)

  /** The effect of an operation that returns nothing but may raise an error of type E. */
  datatype Outcome<+E> = Pass | Fail(error: E)
}
