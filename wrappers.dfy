/** The optional value used where the source may produce `undefined` or `NaN`. */
module Wrappers {
  datatype Option<+T> = None | Some(value: T)
}
