/** An optional value, for "not reached" and "not performed" outcomes. */
module Wrappers {
  datatype Option<+T> = None | Some(value: T)
}
