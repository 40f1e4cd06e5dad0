/** The ways one run of the ramp-meter controller can raise, and the result type
    the model uses in place of Python exceptions. */
module Faults {

  /** An exception raised inside the controller or by one of its collaborators. */
  datatype Fault =
    | TraciError                              // any exception the simulator connection raises
    | IndexOutOfRange(index: int, rows: nat)  // numpy's IndexError on `q_table[state_index]`
    | EmptyArgmax                             // argmax of an empty row or an empty network output
    | UnmappedAction(action: int)             // KeyError on `ACTION_MAPPING[action]`

  /** Either a value or the fault that was raised instead. */
  datatype Result<T> = Ok(value: T) | Err(fault: Fault)

  datatype Option<T> = None | Some(value: T)
}
