/** An optional value: `None` stands where pandas would produce NaN. */
module Wrappers {
  datatype Option<+T> = None | Some(value: T)
}
