/** Optional values: a response that arrived (Some) or a call that threw (None). */
module Wrappers {
  datatype Option<+T> = None | Some(value: T)
}
