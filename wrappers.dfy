/** The optional value the components use where JavaScript has `null` or `undefined`. */
module Wrappers {
  datatype Option<+T> = None | Some(value: T)
}
