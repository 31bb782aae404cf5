/** Optional values: an absent argument, an absent database row, an attribute not yet set. */
module Wrappers {
  datatype Option<+T> = None | Some(value: T)
}
