/** The optional value used for Swift's `Optional` (`City?`, `Date?`, `Int?`). */
module Wrappers {

  datatype Option<+T> = None | Some(value: T)
}
