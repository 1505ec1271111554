/** The optional value used where the source returns `Option` or has no answer. */
module Wrappers {

  datatype Option<+T> = None | Some(value: T)
}
