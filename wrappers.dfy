/** Optional values: `null` / `undefined` in the application. */
module Wrappers {

  datatype Option<+T> = None | Some(value: T)
}
