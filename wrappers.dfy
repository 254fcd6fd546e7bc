/** The optional value used where the controller may or may not write something. */
module Wrappers {
  datatype Option<+T> = None | Some(value: T)
}
