/** Option type for values the JavaScript source may leave `undefined`. */
module Wrappers {
  datatype Option<+T> = None | Some(value: T)
}
