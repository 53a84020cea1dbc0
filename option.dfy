/** A value that may be absent: Python's None, JavaScript's null or undefined. */
module Optional {

  datatype Option<+T> = None | Some(value: T)
}
