/** A value that may be absent: JavaScript's `null` where the source returns one. */
module Wrappers {
  datatype Option<+T> = None | Some(value: T)
}
