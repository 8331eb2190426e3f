/** The absent-or-present value that the JavaScript code expresses with `null`. */
module Wrappers {

  datatype Option<+T> = None | Some(value: T)
}
