/** Wraps optional values. */
module Wrappers {

  datatype Option<+T> = None | Some(value: T)
}
