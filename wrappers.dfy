/** Python's `None` placeholder for a field that has not been assigned yet. */
module Wrappers {
  datatype Option<+T> = None | Some(value: T)
}
