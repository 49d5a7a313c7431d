/** Optional values, results, the byte strings that objects hold, and fresh names. */
module Wrappers {
  datatype Option<+T> = None | Some(value: T)

  datatype Result<+T, +E> = Ok(value: T) | Err(error: E)

  type Bytes = seq<bv8>

  /** A number above every one in use, which a provider may hand out as a new name. */
  method NewName(taken: set<nat>) returns (name: nat)
    ensures name !in taken
  {
    var rest := taken;
    name := 0;
    while rest != {}
      invariant rest <= taken
      invariant forall n | n in taken && n !in rest :: n < name
      decreases rest
    {
      var n :| n in rest;
      rest := rest - {n};
      if name <= n {
        name := n + 1;
      }
    }
  }
}
