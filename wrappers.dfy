/** The optional value used for text fields that may fail to parse. */
module Wrappers {
  datatype Option<+T> = None | Some(value: T)
}
