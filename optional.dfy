/** The conventional optional value, used for Java's absent results and thrown exceptions. */
module Optional {
  datatype Option<+T> = None | Some(value: T)
}
