/** Optional values: Java's nullable returns ("null if not found") become `None`. */
module Wrappers {
  datatype Option<+T> = None | Some(value: T)
}
