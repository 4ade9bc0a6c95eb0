/** An optional value (a TypeScript field that may be `undefined`) and a
    value-or-error result (a value, or the error the program would throw). */
module Wrappers {

  datatype Option<+T> = None | Some(value: T)

  datatype Result<+T, +E> = Ok(value: T) | Err(error: E)
}
