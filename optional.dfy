/** A value that may be missing: Java's nullable references and partial map lookups. */
module Optional {

  datatype Option<+T> = None | Some(value: T)
}
