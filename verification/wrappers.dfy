/** The optional-value type used to stand for the outcome of parsing one text field. */
module Wrappers {

  /** `Some(value)` when the text parsed as a number, `None` when the parse raised. */
  datatype Option<+T> = None | Some(value: T)
}
