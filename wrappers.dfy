/** The conventional optional value, shared by the gallery modules. */
module Wrappers {
  datatype Option<+T> = None | Some(value: T)
}
