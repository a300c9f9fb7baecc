/** The optional value the source expresses with Java's Optional and with null. */
module Wrappers {
  datatype Option<+T> = None | Some(value: T)
}
