/** The usual optional value: a C++ pointer that may be null, or a socket slot that may be empty. */
module Wrappers {
  datatype Option<+T> = None | Some(value: T)
}
