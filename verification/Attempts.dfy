/** Shared result types. */
module Attempts {

  datatype Option<+T> = None | Some(value: T)

  /** The exceptions a dictionary access or a checked counter raises. */
  datatype Fault = KeyError | ValueError

  datatype Attempt<+T> = Done(value: T) | Raised(fault: Fault)
}
