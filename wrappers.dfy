/** Optional values: a widget that reports no change, a cancelled file dialog. */
module Wrappers {
  datatype Option<+T> = None | Some(value: T)
}
