/** Values that may be missing, and the outcome of an operation that may throw. */
module Options {
  datatype Option<+T> = None | Some(value: T)

  /** What a state-changing operation leaves behind: it either returned normally, or it
      threw.  A throwing operation can still have changed its state before it threw. */
  datatype Outcome<+T> = Done(state: T) | Thrown(state: T)
}
