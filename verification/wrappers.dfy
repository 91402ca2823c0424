/** The optional-value datatype used for optional configuration fields. */
module Wrappers {

  datatype Option<+T> = None | Some(value: T)
}
