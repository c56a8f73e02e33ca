/** Small value types shared by the screens and the session provider:
    an optional value, and the outcome of an awaited call that may throw. */
module Outcomes {

  /** A value that may be absent (`undefined`, a missing storage entry). */
  datatype Option<T> = None | Some(value: T)

  /** The unit value, for awaited calls whose only result is that they finished. */
  datatype Unit = Unit

  /** What an awaited foreign call produced: a value, or a thrown error with its text. */
  datatype Attempt<T> = Done(value: T) | Threw(reason: string)
}
