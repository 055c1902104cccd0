/** Optional values, for the fallible steps of the service (json.Marshal). */
module Wrappers {
  datatype Option<+T> = None | Some(value: T)
}
