/** The absent/present value that the client's dictionary lookups return. */
module Wrappers {
  datatype Option<+T> = None | Some(value: T)
}
