/** Notions shared by all parts of the model. */
module Common {
  datatype Option<+T> = None | Some(value: T)

  /** How one API call ends. A lost call took effect, but its caller sees an error. */
  datatype Outcome = Done | Refused | Lost
}
