/** An optional value: `None` marks a missing entry. */
module Wrappers {

  datatype Option<+T> = None | Some(value: T)
}
