/** The optional values the source expresses with Swift's `T?`. */
module Wrappers {
  datatype Option<+T> = None | Some(value: T)
}
