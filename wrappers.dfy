/** Optional values, for the fields the client leaves out of a request and
    for JavaScript's `null` / `undefined`. */
module Wrappers {
  datatype Option<T> = None | Some(value: T)
}
