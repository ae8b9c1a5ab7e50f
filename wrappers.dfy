/*
 * A value that may be absent, shared by the layout and the long-format models.
 */
module Wrappers {
  datatype Option<T> = None | Some(value: T)
}
