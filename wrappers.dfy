/** Optional values, for lookups that can miss and reads that can fail. */
module Wrappers {
  datatype Option<T> = None | Some(value: T)
}
