/** Helper datatypes and functions shared by the other modules. */
module Wrappers {

  datatype Option<+T> = None | Some(value: T)

  /** Number of table entries a C loop `for (j = 0; j < n; j++)` visits. */
  function Count(n: int): (r: nat)
    ensures n >= 0 ==> r == n
    ensures n < 0 ==> r == 0
  {
    if n < 0 then 0 else n
  }
}
