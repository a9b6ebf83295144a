/** A value that may be absent: the model of a TypeScript `T | null` field. */
module Options {

  datatype Option<+T> = None | Some(value: T)

}
