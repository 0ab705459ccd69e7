/** The optional value used wherever the scripts produce Python's `None`. */
module Wrappers {
  datatype Option<+T> = None | Some(value: T)
}
