/** Optional values, for TypeScript's `undefined`. */
module Wrappers {
  datatype Option<+T> = None | Some(value: T)
}
