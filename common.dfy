/** Small shared vocabulary: an optional value, used for C++ null pointers. */
module Common {

  /** `None` plays the role of a null pointer. */
  datatype Option<+T> = None | Some(value: T)
}
