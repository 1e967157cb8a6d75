/** The optional-value type used for Python's `None` and for dictionary lookups that may miss. */
module Wrappers {
  datatype Option<+T> = None | Some(value: T)
}
