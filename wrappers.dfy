/** The usual optional-value datatype, used for JavaScript's optional arguments and fields. */
module Wrappers {
  datatype Option<+T> = None | Some(value: T)
}
