/** The optional value used for tag slots and for answers that may be missing. */
module Wrappers {

  datatype Option<+T> = None | Some(value: T)
}
