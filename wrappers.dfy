/** The usual optional value: `None` stands for JavaScript's `undefined` result. */
module Wrappers {
  datatype Option<+T> = None | Some(value: T)
}
