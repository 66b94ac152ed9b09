/** The optional value used wherever the JavaScript code holds `null` or a value. */
module Wrappers {

  datatype Option<+T> = None | Some(value: T)
}
