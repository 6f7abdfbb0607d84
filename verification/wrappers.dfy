/** The Java `null`-or-value idiom. */
module Wrappers {
  datatype Option<+T> = None | Some(value: T)
}
