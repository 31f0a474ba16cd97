/** The optional value used for "absent or unreadable" inputs and for computations that can fail. */
module Wrappers {
  datatype Option<+T> = None | Some(value: T)
}
