/** Option, used for values a JavaScript operation may leave undefined or NaN. */
module Wrappers {
  datatype Option<+T> = None | Some(value: T)
}
