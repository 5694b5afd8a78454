/** The optional value shared by every module: JavaScript's null, undefined
    and empty-field cases are None. */
module Opt {
  datatype Option<T> = None | Some(value: T)
}
