/** The optional value used where an input line may be missing. */
module Wrappers {
  datatype Option<+T> = None | Some(value: T)
}
