/** Optional values, and results of operations that can be refused. */
module Outcomes {

  datatype Option<T> = None | Some(value: T)

  datatype Result<T> = Ok(value: T) | Error
}
