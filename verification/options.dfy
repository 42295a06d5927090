/** An optional value: a search that may find nothing, a field that may be absent. */
module Options {

  datatype Option<+T> = None | Some(value: T)
}
