/** An optional value: the model's stand-in for a TypeScript `T | null` or a nullable Java reference. */
module Options {

  datatype Option<+T> = None | Some(value: T)
}
