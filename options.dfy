/** Rust's `Option`, for optional fields and lookups. */
module Options {
  datatype Option<+T> = None | Some(value: T)
}
