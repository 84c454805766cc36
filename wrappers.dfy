/** The optional value used where a lookup may find nothing. */
module Wrappers {

  datatype Option<+T> = None | Some(value: T)
}
