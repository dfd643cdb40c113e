/** The optional value used throughout the model in place of null pointers. */
module Wrappers {
  datatype Option<+T> = None | Some(value: T)
}
