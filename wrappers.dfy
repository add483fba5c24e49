/** The optional value used wherever the source has a nullable reference. */
module Wrappers {

  datatype Option<+T> = None | Some(value: T)
}
