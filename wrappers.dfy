/** The nullable values of the chat client (`string | null`, an optional lookup result). */
module Wrappers {

  datatype Option<+T> = None | Some(value: T)
}
