/** The optional-value datatype used for partial lookups and parsers. */
module Wrappers {

  datatype Option<+T> = None | Some(value: T)
}
