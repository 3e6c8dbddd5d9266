/** The optional-value datatype used for the game's error paths. */
module Wrappers {
  datatype Option<+T> = None | Some(value: T)
}
