/** Optional values: a JSON key that may be absent, a `null`, a browser prompt that was cancelled. */
module Wrappers {

  datatype Option<+T> = None | Some(value: T)
}
