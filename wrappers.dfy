/** The absent-or-present value used wherever the JavaScript code holds either
    a value or `null`. */
module Wrappers {

  datatype Option<+T> = None | Some(value: T)

}
