/**
 * The optional value shared by the animators (a tick that may answer nothing) and
 * the todo store (an IPC reply that may carry no data).
 */
module Wrappers {
  datatype Option<T> = None | Some(value: T)
}
