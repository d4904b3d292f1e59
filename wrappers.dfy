/** An optional value: JavaScript's `null` / `undefined` alternatives and
    Python's `None`. */
module Wrappers {

  datatype Option<+T> = None | Some(value: T)
}
