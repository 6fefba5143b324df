/** A value that may be absent: a JS argument left out, a pointer the driver did not return. */
module Results {

  datatype Option<+T> = None | Some(value: T)
}
