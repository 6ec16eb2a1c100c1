/** The optional value used wherever JavaScript has `undefined` or "not found". */
module Wrappers {
  datatype Option<+T> = None | Some(value: T)
}
