/** The optional values of the tables: a column that may be NULL. */
module Wrappers {

  datatype Option<+T> = None | Some(value: T)
}
