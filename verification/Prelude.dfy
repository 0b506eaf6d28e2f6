/** Shared vocabulary: an optional value, used where the Go code has a nil pointer or a zero time. */
module Prelude {
  datatype Option<+T> = None | Some(value: T)
}
