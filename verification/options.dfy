/** An optional value: an analysis pass that may or may not emit a reading, a vertex that may not exist. */
module Options {

  datatype Option<+T> = None | Some(value: T)
}
