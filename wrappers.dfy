/** Optional values: Python's `None` and the tri-state booleans of the switcher. */
module Wrappers {

  datatype Option<+T> = None | Some(value: T)
}
