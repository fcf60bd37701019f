/** Optional values: Kotlin's nullable types (`String?`) and Android's nullable getters. */
module Wrappers {

  datatype Option<+T> = None | Some(value: T)
}
