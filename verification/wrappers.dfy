/** Small value wrappers shared by the planner modules. */
module Wrappers {

  /** A value that may be absent (JavaScript's `null`/`undefined`). */
  datatype Option<+T> = None | Some(value: T)

  /** A value together with the position of the next unread random number,
      so that every consumer of `Math.random` can be threaded in order. */
  datatype Drawn<+T> = Drawn(value: T, next: nat)
}
