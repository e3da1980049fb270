/** The optional value used for `null`-able JavaScript values. */
module Wrappers {

  datatype Option<+T> = None | Some(value: T)
}
