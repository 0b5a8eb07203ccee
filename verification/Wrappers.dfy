/** Option: a value that may be absent (a moved-from cell, a null result). */
module Wrappers {
  datatype Option<+T> = None | Some(value: T)
}
