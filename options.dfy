/** The optional value used wherever the loader meets a Java `null`. */
module Options {
  datatype Option<+T> = None | Some(value: T)
}
