/** Failure-carrying results shared by every layer of the calculator. */
module Outcomes {

  datatype Option<+T> = None | Some(value: T)

  /** The two fatal stack faults. In the program each one prints a message to the
      error stream and ends the process with a failure status. */
  datatype Fault = Overflow | Underflow

  /** Either the operation completed, or the process ended with a fatal fault.
      Nothing ever runs after an `Abort`. */
  datatype Outcome<+T> = Ok(value: T) | Abort(fault: Fault)
}
