/** The optional value the source writes as "a value or None". */
module Wrappers {
  datatype Option<+T> = None | Some(value: T)
}
