/** Option and Result, the two wrappers the importer's callbacks are modelled with. */
module Wrappers {

  datatype Option<+T> = None | Some(value: T)

  /** What a Node-style callback receives: `callback(null, value)` or `callback(err)`. */
  datatype Result<+R, +E> = Ok(value: R) | Err(error: E)
}
