/** Fresh numbers: addresses and descriptors not in use. */
module Bounds {
  /** A number above every element. */
  ghost function Above(s: set<nat>): (b: nat)
    ensures forall n | n in s :: n < b
  {
    if s == {} then 0
    else
      var x :| x in s;
      var b := Above(s - {x});
      assert forall n | n in s :: n == x || n in s - {x};
      if x < b then b else x + 1
  }
}
