/** The absent-or-present value used throughout the model: JavaScript's
    `undefined`/`null` results become `None`. */
module Wrappers {

  datatype Option<+T> = None | Some(value: T)
}
