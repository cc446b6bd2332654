/** The Some/None datatype used wherever script.js produces `undefined` or
    `null` in place of a value. */
module Wrappers {

  datatype Option<+T> = None | Some(value: T)
}
