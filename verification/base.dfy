/** Small shared vocabulary: an optional value. */
module Base {

  /** A value that may be missing, as Python's `None` for "not found". */
  datatype Option<+T> = None | Some(value: T)
}
