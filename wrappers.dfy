/** Optional values: the model's stand-in for Kotlin's nullable types (`Double?`). */
module Wrappers {

  datatype Option<+T> = None | Some(value: T)
}
