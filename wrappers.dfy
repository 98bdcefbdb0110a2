/** The optional value used for nullable fields and results. */
module Wrappers {
  datatype Option<+T> = None | Some(value: T)
}
