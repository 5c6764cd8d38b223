/** Optional values: a field that a JSON message may or may not carry. */
module Wrappers {
  datatype Option<+T> = None | Some(value: T)
}
