/** A value that may be absent: the scorer's view of a missing or NaN entry. */
module Optional {

  datatype Option<+T> = None | Some(value: T)
}
