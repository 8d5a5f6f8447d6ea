/** The optional value used wherever the modelled JavaScript yields either a value or nothing. */
module Wrappers {
  datatype Option<+T> = None | Some(value: T)
}
