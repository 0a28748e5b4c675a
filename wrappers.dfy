/** The optional value used for "no request issued" and for parse results. */
module Wrappers {
  datatype Option<+T> = None | Some(value: T)
}
