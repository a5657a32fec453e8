/** Optional values: a reply the text generator may or may not produce, save data that may be absent. */
module Wrappers {
  datatype Option<+T> = None | Some(value: T)
}
