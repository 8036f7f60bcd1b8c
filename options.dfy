/** The usual optional-value wrapper, used where the source throws or tests a type. */
module Options {
  datatype Option<+T> = None | Some(value: T)
}
