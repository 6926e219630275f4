/** A minimal optional-value datatype, used for JavaScript values that may be unset. */
module Wrappers {

  datatype Option<+T> = None | Some(value: T)
}
