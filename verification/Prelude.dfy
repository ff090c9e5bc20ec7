/** Datatypes shared by the other modules. */
module Prelude {
  datatype Option<+T> = None | Some(value: T)
}
