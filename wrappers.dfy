/** The conventional optional value, used where the source signals a miss. */
module Wrappers {
  datatype Option<+T> = None | Some(value: T)
}
