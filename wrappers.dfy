/** Optional values: the `None` the source returns from `dict.get` and from a failed login. */
module Wrappers {
  datatype Option<+T> = None | Some(value: T)
}
