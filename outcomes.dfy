/** Optional values, the two exception kinds of the smart-home system, and a
    result type that carries either a value or one of those exceptions. */
module Outcomes {

  datatype Option<+T> = None | Some(value: T)

  /** InvalidInputException and DeviceNotFoundException. */
  datatype Error =
    | InvalidInput(message: string)
    | DeviceNotFound(id: string)

  datatype Result<+T> = Ok(value: T) | Err(error: Error)
}
