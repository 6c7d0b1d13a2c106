/** Results of operations that may be absent or refused. */
module Wrappers {
  datatype Option<+T> = None | Some(value: T)

  datatype Result<+T> = Ok(value: T) | Err(error: string)

  /** Marks the places that look into a sealed definition, one that hides behind a quantifier over this. */
  predicate Unsealed(k: nat) {
    true
  }
}
