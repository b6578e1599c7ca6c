/** Values shared by every component: an optional value. */
module Prelude {
  datatype Option<+T> = None | Some(value: T)
}
