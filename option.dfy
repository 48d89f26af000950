/** The optional value shared by every module: a lookup that may find nothing, a fetch that may fail. */
module Optional {

  datatype Option<+T> = None | Some(value: T)
}
