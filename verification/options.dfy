/** The optional value used wherever the source has "absent" or "could not be read". */
module Options {

  datatype Option<+T> = None | Some(value: T)
}
