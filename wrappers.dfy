/** The conventional Some/None datatype, standing in for a JavaScript value
    that may be `undefined` or `null`. */
module Wrappers {
  datatype Option<+T> = None | Some(value: T)
}
