/** The optional value used where a script may find nothing. */
module Wrappers {

  datatype Option<+T> = None | Some(value: T)
}
