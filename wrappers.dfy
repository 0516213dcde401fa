/** Option, Result and the exceptions the circuit layer raises. */
module Wrappers {

  datatype Option<+T> = None | Some(value: T)

  /** Which check of the circuit layer raised. The exact message text is not
      modelled, only the check that fired and the key or name it concerns. */
  datatype Error =
    | NotProvided(key: string)          // ValueError "... not provided"
    | WrongType(key: string)            // ValueError "... must be ..."
    | InvalidGateType                   // ValueError "Invalid gate type: ..."
    | Unhashable(key: string)           // TypeError: a list tested for set membership
    | FanInMismatch(expected: nat, actual: nat)  // ValueError "Number of input components ..."
    | NotAComponent                     // AttributeError: an input without output_node_name
    | KeyError(key: string)             // a dictionary lookup of a missing key
    | NotAString(key: string)           // TypeError: a non-string concatenated to a name
    | NotInCircuit(name: string)        // ValueError "The given gate name does not belong ..."
    | NotAnInteger(text: string)        // ValueError from int() on a gate-number suffix
    | NotIterable(key: string)          // TypeError: iterating over a non-iterable value

  datatype Result<+T> = Ok(value: T) | Err(error: Error)
}
