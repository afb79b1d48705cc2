/** Python's `None`-or-value fields, as a datatype. */
module Wrappers {
  datatype Option<+T> = None | Some(value: T)
}
