/** An optional value, for the source's nullable columns and relations. */
module Wrappers {
  datatype Option<+T> = None | Some(value: T)
}
