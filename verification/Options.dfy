/** An optional value: a `null`/`undefined` of the modelled program, or an absent record. */
module Options {
  datatype Option<+T> = None | Some(value: T)
}
