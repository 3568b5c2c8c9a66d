/** The optional value used for absent JavaScript arguments and for ratios
    whose divisor is zero. */
module Wrappers {

  datatype Option<+T> = None | Some(value: T)
}
