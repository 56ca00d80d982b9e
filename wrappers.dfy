/** Optional values: the source's `string | null` fields and its "no file selected" / "no window" cases. */
module Wrappers {
  datatype Option<+T> = None | Some(value: T)
}
