/** The optional value the tracker uses for "no best track yet" and "no histogram yet". */
module Wrappers {
  datatype Option<T> = None | Some(value: T)
}
