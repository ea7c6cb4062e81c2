/** A value that may be missing: a nil pointer, an absent entry, an answer that did not come. */
module Wrappers {
  datatype Option<+T> = None | Some(value: T)
}
