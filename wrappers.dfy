/** The optional-value datatype used for parse results, payload fields and timestamps. */
module Wrappers {
  datatype Option<+T> = None | Some(value: T)
}
