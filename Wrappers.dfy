/** Stock optional value, used wherever JavaScript has `undefined`. */
module Wrappers {

  datatype Option<+T> = None | Some(value: T)
}
