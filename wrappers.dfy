/** Option stands for a JavaScript value that may be `undefined` (None) or present (Some). */
module Wrappers {

  datatype Option<+T> = None | Some(value: T)

}
