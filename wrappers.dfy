/** The optional value used wherever PHP or JavaScript may hold null. */
module Wrappers {
  datatype Option<+T> = None | Some(value: T)
}
