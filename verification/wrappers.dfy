/** The optional value used where the source has a nil pointer or an absent field. */
module Wrappers {
  datatype Option<+T> = None | Some(value: T)
}
