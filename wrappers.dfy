/** Optional values: stands for a JavaScript value that may be `undefined` or `null`. */
module Wrappers {

  datatype Option<+T> = None | Some(value: T)
}
