/** The Option datatype standing for a Java reference that may be `null`: a missing root, an absent child. */
module Wrappers {
  datatype Option<+T> = None | Some(value: T)
}
