/** Optional values: JavaScript's `undefined`/`null` and "no match" results. */
module Wrappers {

  datatype Option<+T> = None | Some(value: T)
}
