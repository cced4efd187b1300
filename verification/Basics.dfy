/** Small generic types and the "lowest free number" search shared by the models. */
module Basics {
  datatype Option<+T> = None | Some(value: T)

  datatype Result<+T, +E> = Ok(value: T) | Err(error: E)

  /** Answer of one await: it went through, or it failed, having taken effect or not. */
  datatype Reply = Done | Fail(acted: bool)

  /** The lowest number of lo..hi outside `used`; the shape of both the address search and the NIC slot search. */
  function LowestFree(lo: nat, hi: nat, used: set<nat>): (r: Option<nat>)
    ensures r.Some? ==> lo <= r.value <= hi && r.value !in used && forall k :: lo <= k < r.value ==> k in used
    ensures r.None? ==> forall k :: lo <= k <= hi ==> k in used
    decreases hi + 1 - lo
  {
    if lo > hi then None
    else if lo !in used then Some(lo)
    else LowestFree(lo + 1, hi, used)
  }

  /** The search itself, `(lo..=hi).find(|k| !used.contains(k))`. */
  method FindFree(lo: nat, hi: nat, used: set<nat>) returns (r: Option<nat>)
    ensures r == LowestFree(lo, hi, used)
  {
    var k := lo;
    while k <= hi
      invariant LowestFree(lo, hi, used) == LowestFree(k, hi, used)
      decreases hi + 1 - k
    {
      if k !in used {
        return Some(k);
      }
      k := k + 1;
    }
    return None;
  }

  /** A run of n consecutive used numbers needs at least n used numbers. */
  lemma {:induction false} RunFitsIn(lo: nat, n: nat, used: set<nat>)
    requires forall k :: lo <= k < lo + n ==> k in used
    ensures n <= |used|
  {
    if n > 0 {
      var last := lo + n - 1;
      RunFitsIn(lo, n - 1, used - {last});
    }
  }

  lemma Subset<T>(a: set<T>, b: set<T>)
    requires a <= b
    ensures |a| <= |b|
  {
    assert b == a + (b - a);
  }
}
