/** Optional values, standing in for the Java `null` a lookup or getter may return. */
module Wrappers {
  datatype Option<+T> = None | Some(value: T)
}
