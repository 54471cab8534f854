/** A value that may be absent: a nil pointer, an invalid address, an empty result. */
module Wrappers {
  datatype Option<+T> = None | Some(value: T)
}
