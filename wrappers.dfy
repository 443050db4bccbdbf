/** The conventional optional-value datatype, used for Python values that may be `None`. */
module Wrappers {
  datatype Option<+T> = None | Some(value: T)
}
