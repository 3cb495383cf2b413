/** The optional value used wherever the sources use `null`/`undefined`. */
module Options {

  datatype Option<+T> = None | Some(value: T)
}
