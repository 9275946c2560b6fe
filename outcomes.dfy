/** The exceptions the core raises, and the optional values it passes around, as datatypes. */
module Outcomes {

  /** The errors raised by the client and the reconciler. */
  datatype Error =
    | ServiceError(text: string)     // ValueError(http_response.text): the response had an unexpected status
    | InvalidMethod(verb: string)    // ValueError("Invalid HTTP request type: ...") from modify_group_membership
    | UnpackError(columns: nat)      // ValueError from unpacking row[0:2] into two names (fewer than two columns)
    | IndexError(columns: nat)       // IndexError from row[1] (fewer than two columns)

  datatype Result<+T> = Ok(value: T) | Err(error: Error)

  datatype Option<+T> = None | Some(value: T)
}
