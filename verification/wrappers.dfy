/** Optional values: a JavaScript field that may be absent (`undefined`) or a value that may be `null`. */
module Wrappers {

  datatype Option<+T> = None | Some(value: T)
}
