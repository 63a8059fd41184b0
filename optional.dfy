/** A nullable reference of the C# source, as a value. */
module Optional {
  datatype Option<+T> = None | Some(value: T)
}
