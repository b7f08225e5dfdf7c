/** Rust's `Option`, shared by the parser's node types and the JSON reader. */
module Options {
  datatype Option<+T> = None | Some(value: T)
}
