/** The one result type the modules share: a value, or none (Go's nil). */
module Wrappers {
  datatype Option<+T> = None | Some(value: T)
}
