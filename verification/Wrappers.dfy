/** Stock wrapper for a value that may be absent (a nil pointer or channel in the plugin). */
module Wrappers {
  datatype Option<+T> = None | Some(value: T)
}
