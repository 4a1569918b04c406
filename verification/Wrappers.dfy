/** Small things that every part uses. */
module Wrappers {

  /** The result of an operation that may have none. */
  datatype Option<+T> = None | Some(value: T)

  function Pow2(k: nat): (r: nat)
    ensures r > 0
  {
    if k == 0 then 1 else 2 * Pow2(k - 1)
  }
}
