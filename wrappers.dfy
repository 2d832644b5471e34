/** The optional value used for fields that a submission may leave undefined. */
module Wrappers {
  datatype Option<+T> = None | Some(value: T)
}
