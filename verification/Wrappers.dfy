/** The usual Some/None datatype, used where the Go code has nil or a missing map key. */
module Wrappers {
  datatype Option<+T> = None | Some(value: T)
}
