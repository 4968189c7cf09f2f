/** Optional values, used for the settings store lookup, a missing split field and
    the host's rejection point. */
module Wrappers {
  datatype Option<+T> = None | Some(value: T)
}
