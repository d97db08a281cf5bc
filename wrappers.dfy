/** The optional value used for the quiz's nullable state (`currentWord`) and
    for the keystroke filter. */
module Wrappers {
  datatype Option<+T> = None | Some(value: T)
}
