/** The result of a reader that may refuse its input. */
module Options {
  datatype Option<+T> = None | Some(value: T)
}
