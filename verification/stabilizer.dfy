/** The stabilization buffer: a fixed ring of `ArraySize` integer slots with a
    write position, its record, flush and floor-average operations. */
module Stabilizer {
  import opened Constants

  datatype Ring = Ring(slots: seq<int>, index: int)

  /** The shape the ring always has: exactly `ArraySize` slots and an index
      that points at one of them. */
  predicate WellFormed(r: Ring) {
    |r.slots| == ArraySize && 0 <= r.index < ArraySize
  }

  function Sum(s: seq<int>): int {
    if |s| == 0 then 0 else s[0] + Sum(s[1..])
  }

  function Zeros(): seq<int> {
    seq(ArraySize, _ => 0)
  }

  /** Replaces every slot by zero. The write position is NOT reset. */
  function Flush(r: Ring): (f: Ring)
    ensures |f.slots| == ArraySize
    ensures forall j :: 0 <= j < |f.slots| ==> f.slots[j] == 0
    ensures f.index == r.index
  {
    Ring(Zeros(), r.index)
  }

  /** Writes `v` at the write position and advances it, wrapping at `ArraySize`. */
  function Record(r: Ring, v: int): (r': Ring)
    requires WellFormed(r)
    ensures WellFormed(r')
    ensures r'.slots[r.index] == v
    ensures forall j :: 0 <= j < ArraySize && j != r.index ==> r'.slots[j] == r.slots[j]
    ensures r'.index == (r.index + 1) % ArraySize
    ensures Sum(r'.slots) == Sum(r.slots) - r.slots[r.index] + v
  {
    SumUpdate(r.slots, r.index, v);
    Ring(r.slots[r.index := v], (r.index + 1) % ArraySize)
  }

  /** Floor of the mean of all slots, zero-filled ones included. */
  function Average(r: Ring): (a: int)
    requires WellFormed(r)
    ensures ArraySize * a <= Sum(r.slots) < ArraySize * (a + 1)
  {
    Sum(r.slots) / |r.slots|
  }

  lemma {:induction false} SumUpdate(s: seq<int>, i: int, v: int)
    requires 0 <= i < |s|
    ensures Sum(s[i := v]) == Sum(s) - s[i] + v
    decreases |s|
  {
    if i == 0 {
      assert s[i := v][1..] == s[1..];
    } else {
      assert s[i := v][1..] == s[1..][i - 1 := v];
      SumUpdate(s[1..], i - 1, v);
    }
  }

  lemma {:induction false} SumConstant(n: nat, v: int)
    ensures Sum(seq(n, _ => v)) == n * v
  {
    if n > 0 {
      assert seq(n, _ => v)[1..] == seq(n - 1, _ => v);
      SumConstant(n - 1, v);
    }
  }

  lemma {:induction false} SumBounds(s: seq<int>, lo: int, hi: int)
    requires forall j :: 0 <= j < |s| ==> lo <= s[j] <= hi
    ensures |s| * lo <= Sum(s) <= |s| * hi
  {
    if |s| > 0 {
      SumBounds(s[1..], lo, hi);
      assert |s| * lo == (|s| - 1) * lo + lo;
      assert |s| * hi == (|s| - 1) * hi + hi;
    }
  }

  /** When every slot lies in `[lo, hi]`, so does the average. */
  lemma AverageWithin(r: Ring, lo: int, hi: int)
    requires WellFormed(r)
    requires forall j :: 0 <= j < ArraySize ==> lo <= r.slots[j] <= hi
    ensures lo <= Average(r) <= hi
  {
    SumBounds(r.slots, lo, hi);
  }

  /** A flushed ring sums and averages to zero. */
  lemma FlushedAverage(r: Ring)
    ensures Sum(Flush(r).slots) == 0
    ensures 0 <= r.index < ArraySize ==> Average(Flush(r)) == 0
  {
    SumConstant(ArraySize, 0);
  }

  /** A ring filled with one value averages to that value. */
  lemma ConstantAverage(r: Ring, v: int)
    requires WellFormed(r)
    requires forall j :: 0 <= j < ArraySize ==> r.slots[j] == v
    ensures Average(r) == v
  {
    AverageWithin(r, v, v);
  }
}
