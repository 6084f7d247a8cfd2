/** A value or nothing. */
module Wrappers {
  datatype Option<T> = None | Some(value: T)
}
