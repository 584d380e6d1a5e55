/** Optional values, results and the ways a run of the tool can stop early. */
module Errors {

  datatype Option<+T> = None | Some(value: T)

  /** The exceptions (and the explicit exit) that end a run of the tool. */
  datatype Error =
    | ZeroStep                  // Python's range() rejects a zero step (ValueError)
    | ZeroDivision              // a float or int division by zero (ZeroDivisionError)
    | NameNotDefined(name: string) // a lambda reads a variable that is not bound (NameError)
    | UnknownAction(action: string) // exec_transform met an action it does not know: exit(1)

  datatype Result<+T> = Ok(value: T) | Err(error: Error)
}
