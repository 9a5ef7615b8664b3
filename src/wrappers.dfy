/** Optional values, as Rust's `Option` and Python's `None`-or-value parameters. */
module Wrappers {
  datatype Option<+T> = None | Some(value: T)
}
