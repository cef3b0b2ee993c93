/** Small shared datatypes. */
module Wrappers {

  datatype Option<+T> = None | Some(value: T)

  /** How one SQL statement (or transaction) ends.
      Done: it took effect and reported success.
      Lost: it reported an error and had no effect.
      Unknown: it reported an error although its effect was committed, as happens
      when the caller's context ends while the statement is being acknowledged. */
  datatype Outcome = Done | Lost | Unknown {
    predicate Effective() { this != Lost }
  }
}
