/** What every module needs. */
module Common {

  datatype Option<+T> = None | Some(value: T)
}
