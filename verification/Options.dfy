/** The one wrapper every module shares: a value that may be missing (SQL NULL, Rust Option, Python None). */
module Options {
  datatype Option<+T> = None | Some(value: T)
}
