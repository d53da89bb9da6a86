/** Optional values: stands for the source's `undefined`/`null` results. */
module Wrappers {
  datatype Option<T> = None | Some(value: T)
}
