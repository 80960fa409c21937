/** Option and Result values, and the Python exceptions the core can raise. */
module Wrappers {

  datatype Option<+T> = None | Some(value: T)

  /** The exceptions the source lets escape: a dictionary lookup of a missing
      key, `list.index` of a missing item, and a float division by zero. */
  datatype PyError =
    | KeyError(key: string)
    | ValueError(item: string)
    | ZeroDivisionError

  datatype Result<+T> = Ok(value: T) | Err(error: PyError)
}
