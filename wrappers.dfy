/** Optional values: JavaScript's `null`/`undefined` alternatives made explicit. */
module Wrappers {

  datatype Option<+T> = None | Some(value: T)
}
