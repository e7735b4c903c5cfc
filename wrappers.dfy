/** The optional value used for `startTime: Date?`. */
module Wrappers {
  datatype Option<+T> = None | Some(value: T)
}
