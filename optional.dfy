/** An optional value: a JSON field that may be missing, a fetch that may fail. */
module Optional {

  datatype Option<+T> = None | Some(value: T)
}
