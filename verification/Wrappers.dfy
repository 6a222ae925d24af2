/** The optional values of the modelled code. */
module Wrappers {
  datatype Option<+T> = None | Some(value: T)
}
