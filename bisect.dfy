/** Python's `bisect.bisect_left`, used by the event sampler and by the
    Schmidt-test table lookup. */
module Bisect {

  predicate Sorted(a: seq<real>)
  {
    forall i, j :: 0 <= i <= j < |a| ==> a[i] <= a[j]
  }

  /** The halving loop of `bisect_left(a, x, lo, hi)`, one iteration per call. */
  function BisectLeftIn(a: seq<real>, x: real, lo: nat, hi: nat): (i: nat)
    requires lo <= hi <= |a|
    ensures lo <= i <= hi
    ensures Sorted(a) ==> forall j :: lo <= j < i ==> a[j] < x
    ensures Sorted(a) ==> forall j :: i <= j < hi ==> x <= a[j]
    decreases hi - lo
  {
    if lo < hi then
      var mid := (lo + hi) / 2;
      if a[mid] < x then BisectLeftIn(a, x, mid + 1, hi) else BisectLeftIn(a, x, lo, mid)
    else lo
  }

  /** `bisect_left(a, x)`: on a sorted list, the leftmost index at which `x`
      could be inserted, i.e. everything before it is `< x` and everything
      from it on is `>= x`. */
  function BisectLeft(a: seq<real>, x: real): (i: nat)
    ensures i <= |a|
    ensures Sorted(a) ==> (forall j :: 0 <= j < i ==> a[j] < x) && (forall j :: i <= j < |a| ==> x <= a[j])
  {
    BisectLeftIn(a, x, 0, |a|)
  }
}
