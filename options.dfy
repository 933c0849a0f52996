/** The optional value used for TypeScript's optional properties (`x?: T`) and for a
    missing or unparsable token. */
module Options {

  datatype Option<+T> = None | Some(value: T)
}
