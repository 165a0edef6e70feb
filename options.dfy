/** The optional value used for absent file paths, failure oracles and parse results. */
module Options {
  datatype Option<T> = None | Some(value: T)
}
