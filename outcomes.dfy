/** Failure-carrying results: a JavaScript `undefined`/`null` becomes `None`,
    a thrown `Error` becomes `Err` with its message. */
module Outcomes {

  datatype Option<+T> = None | Some(value: T)

  datatype Result<+T> = Ok(value: T) | Err(error: string)
}
