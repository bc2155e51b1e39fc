/** The paginator: a linear scan over the ID space, keeping the IDs that have a stored
    record. Both contracts page this way; they differ only in how they compute the
    bounds of the scan. */
module Pagination {
  import opened Common
  import opened RecordStore

  /** The IDs in `[lo, hi)` that have a record in `m`, in ascending order. */
  function IdsIn<T>(m: map<nat, T>, lo: nat, hi: nat): (ids: seq<nat>)
    ensures StrictlyIncreasing(ids)
    ensures forall i :: 0 <= i < |ids| ==> ids[i] in m && lo <= ids[i] < hi
    decreases hi
  {
    if hi <= lo then []
    else
      var prefix := IdsIn(m, lo, hi - 1);
      prefix + (if hi - 1 in m then [hi - 1] else [])
  }

  /** The scan misses no stored ID of its window. */
  lemma {:induction false} IdsInComplete<T>(m: map<nat, T>, lo: nat, hi: nat, k: nat)
    requires k in m && lo <= k < hi
    ensures k in IdsIn(m, lo, hi)
    decreases hi
  {
    if k < hi - 1 {
      IdsInComplete(m, lo, hi - 1, k);
    }
  }

  /** The values stored under `ids`, in that order. */
  function ValuesAt<T>(m: map<nat, T>, ids: seq<nat>): (vs: seq<T>)
    requires forall i :: 0 <= i < |ids| ==> ids[i] in m
    ensures |vs| == |ids|
    ensures forall i :: 0 <= i < |ids| ==> vs[i] == m[ids[i]]
  {
    seq(|ids|, i requires 0 <= i < |ids| => m[ids[i]])
  }

  /** The contiguous run `a, a+1, ..., b-1` (empty when `b <= a`). */
  function Range(a: nat, b: nat): (r: seq<nat>)
    ensures |r| == if b > a then b - a else 0
    ensures forall i :: 0 <= i < |r| ==> r[i] == a + i
  {
    seq(if b > a then b - a else 0, i => a + i)
  }

  function Max(a: nat, b: nat): nat { if a >= b then a else b }
  function Min(a: nat, b: nat): nat { if a <= b then a else b }

  /** Over a dense store (no holes, IDs 1 .. next-1) the scan of `[lo, hi)` yields
      every allocated ID of that window, with no gap and no duplicate. */
  lemma {:induction false} IdsInDense<T>(m: map<nat, T>, next: nat, lo: nat, hi: nat)
    requires Dense(m, next)
    ensures IdsIn(m, lo, hi) == Range(Max(lo, 1), Min(hi, next))
    decreases hi
  {
    if hi > lo {
      var a := Max(lo, 1);
      IdsInDense(m, next, lo, hi - 1);
      var prefix := IdsIn(m, lo, hi - 1);
      assert IdsIn(m, lo, hi) == prefix + (if hi - 1 in m then [hi - 1] else []);
      if hi - 1 in m {
        assert prefix == Range(a, hi - 1);
        assert Range(a, hi - 1) + [hi - 1] == Range(a, hi);
      } else {
        assert Min(hi - 1, next) == Min(hi, next) || (hi == 1 && a == 1);
      }
    }
  }

  /** Scanning `[lo, mid)` and then `[mid, hi)` is the same as scanning `[lo, hi)`:
      pages with contiguous cursors concatenate to the whole ordered listing. */
  lemma {:induction false} IdsInSplit<T>(m: map<nat, T>, lo: nat, mid: nat, hi: nat)
    requires lo <= mid <= hi
    ensures IdsIn(m, lo, mid) + IdsIn(m, mid, hi) == IdsIn(m, lo, hi)
    decreases hi
  {
    if hi > mid {
      IdsInSplit(m, lo, mid, hi - 1);
      var tail := if hi - 1 in m then [hi - 1] else [];
      assert IdsIn(m, mid, hi) == IdsIn(m, mid, hi - 1) + tail;
      assert IdsIn(m, lo, hi) == IdsIn(m, lo, hi - 1) + tail;
      assert IdsIn(m, lo, mid) + (IdsIn(m, mid, hi - 1) + tail)
          == (IdsIn(m, lo, mid) + IdsIn(m, mid, hi - 1)) + tail;
    } else {
      assert IdsIn(m, mid, hi) == [];
      assert mid == hi;
    }
  }
}
