/** The usual optional value, used for "not written yet" and for the comma-ok form of a type assertion. */
module Wrappers {
  datatype Option<+T> = None | Some(value: T)
}
