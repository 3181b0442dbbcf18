/** Values that may be missing: Go's absent map entries, zero results and (value, ok) pairs. */
module Wrappers {
  datatype Option<+T> = None | Some(value: T)
}
