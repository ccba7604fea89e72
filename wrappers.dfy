/** Python's `None`-or-value, used for optional annotation and type texts. */
module Wrappers {
  datatype Option<+T> = None | Some(value: T)
}
