/** Shared result shapes. */
module Prelude {
  datatype Option<+T> = None | Some(value: T)
}
