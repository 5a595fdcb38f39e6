/** Option and Result values for the model's error paths: `undefined` array reads
    and thrown errors become `None` and `Err`. */
module Outcomes {

  datatype Option<+T> = None | Some(value: T)

  datatype Result<+T, +E> = Ok(value: T) | Err(error: E)
}
