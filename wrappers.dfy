/** The optional value used wherever the price board reads `undefined`. */
module Wrappers {
  datatype Option<+T> = None | Some(value: T)
}
