/** The optional value used wherever the source has a Swift optional (`T?`). */
module Wrappers {

  datatype Option<+T> = None | Some(value: T)
}
