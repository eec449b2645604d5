/** The optional value returned by `Array.prototype.find`: a found element or nothing. */
module Wrappers {
  datatype Option<+T> = None | Some(value: T)
}
