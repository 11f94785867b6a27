/** The optional value used for the outcome of name parsing. */
module Wrappers {
  datatype Option<+T> = None | Some(value: T)
}
