/** The conventional optional value; `None` plays the part of a null pointer. */
module Wrappers {
  datatype Option<+T> = None | Some(value: T)
}
