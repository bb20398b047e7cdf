/** The optional value that a `??` fallback consumes: `None` stands for `undefined`. */
module Options {
  datatype Option<+T> = None | Some(value: T)
}
