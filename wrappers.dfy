/** Optional values and results with an error message, standing for JavaScript's
    `null`/`undefined` and for the `{ error: '...' }` objects the store returns. */
module Wrappers {

  datatype Option<+T> = None | Some(value: T)

  datatype Result<+T> = Ok(value: T) | Err(error: string)
}
