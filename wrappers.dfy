/** Optional values: the model's `undefined`/`null`. */
module Wrappers {

  datatype Option<+T> = None | Some(value: T)
}
