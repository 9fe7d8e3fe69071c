/** The optional value that stands for Python's `None` and for a missing dictionary key. */
module Wrappers {
  datatype Option<+T> = None | Some(value: T)
}
