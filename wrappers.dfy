/** Optional values, used for what the key-value store hands back and for
    the request a handler may or may not issue. */
module Wrappers {
  datatype Option<+T> = None | Some(value: T)
}
