/** The one general-purpose datatype of the project: a value that may be missing. */
module Wrappers {
  datatype Option<+T> = None | Some(value: T)
}
