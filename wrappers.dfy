/** The optional value returned by a node callback that may fall off its end without returning. */
module Wrappers {

  datatype Option<+T> = None | Some(value: T)
}
