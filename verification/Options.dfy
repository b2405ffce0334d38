/** The stock optional value; it stands for the source's nil pointers and JSON nulls. */
module Options {
  datatype Option<+T> = None | Some(value: T)
}
