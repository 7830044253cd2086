/** Java's nullable references: a value that is present or absent. */
module Optional {

  datatype Option<+T> = None | Some(value: T)
}
