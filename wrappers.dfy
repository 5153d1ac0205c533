/** An optional value: the model of a TypeScript `T | null` state field. */
module Wrappers {

  datatype Option<T> = None | Some(value: T)

}
