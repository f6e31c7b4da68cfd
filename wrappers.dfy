/** The optional value used for every operation of the trip service that can fail. */
module Wrappers {
  datatype Option<+T> = None | Some(value: T)
}
