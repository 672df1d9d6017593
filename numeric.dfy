/** Numeric helpers with the semantics of the numpy/Python calls the scripts
    use: `np.around` (round half to even), `int()` (truncation), sums,
    means, cumulative sums, `idxmax`, `argmax` of an equality mask and
    `sel(method="nearest")`. */
module Numeric {

  /** `np.around(x)` / Python `round(x)`: nearest integer, ties to even. */
  function RoundHalfEven(x: real): (r: int)
    ensures x - 1.0 / 2.0 <= r as real <= x + 1.0 / 2.0
    ensures x - x.Floor as real == 1.0 / 2.0 ==> r % 2 == 0
  {
    var f := x.Floor;
    var frac := x - f as real;
    if frac < 1.0 / 2.0 then f
    else if frac > 1.0 / 2.0 then f + 1
    else if f % 2 == 0 then f
    else f + 1
  }

  /** Rounding an integer gives it back. */
  lemma RoundOfInteger(n: int)
    ensures RoundHalfEven(n as real) == n
  {
  }

  /** A value exactly halfway between two integers. */
  predicate IsTie(x: real) {
    x - x.Floor as real == 1.0 / 2.0
  }

  /** The two conditions of `RoundHalfEven` single out its result. */
  lemma RoundUnique(x: real, n: int)
    requires x - 1.0 / 2.0 <= n as real <= x + 1.0 / 2.0
    requires IsTie(x) ==> n % 2 == 0
    ensures RoundHalfEven(x) == n
  {
  }

  /** Shifting by an integer shifts the rounding, except for a tie shifted
      by an odd amount, where the even neighbour changes sides. */
  lemma RoundShift(x: real, k: int)
    requires k % 2 == 0 || !IsTie(x)
    ensures RoundHalfEven(x - k as real) == RoundHalfEven(x) - k
  {
    var r := RoundHalfEven(x);
    assert (x - k as real).Floor == x.Floor - k;
    RoundUnique(x - k as real, r - k);
  }

  /** Python `int(x)` on a float: truncation toward zero. */
  function Trunc(x: real): (r: int)
    ensures x >= 0.0 ==> r as real <= x < r as real + 1.0
    ensures x < 0.0 ==> r as real - 1.0 < x <= r as real
  {
    if x >= 0.0 then x.Floor else -((-x).Floor)
  }

  function Sum(s: seq<real>): real
    decreases |s|
  {
    if s == [] then 0.0 else Sum(s[..|s| - 1]) + s[|s| - 1]
  }

  lemma {:induction false} SumAppend(a: seq<real>, b: seq<real>)
    ensures Sum(a + b) == Sum(a) + Sum(b)
    decreases |b|
  {
    if b != [] {
      assert (a + b)[..|a + b| - 1] == a + b[..|b| - 1];
      SumAppend(a, b[..|b| - 1]);
    } else {
      assert a + b == a;
    }
  }

  /** Arithmetic mean (`.mean()` over a non-empty dimension). */
  function Mean(s: seq<real>): real
    requires |s| > 0
  {
    Sum(s) / |s| as real
  }

  lemma {:induction false} SumBounds(s: seq<real>, lo: real, hi: real)
    requires forall i :: 0 <= i < |s| ==> lo <= s[i] <= hi
    ensures |s| as real * lo <= Sum(s) <= |s| as real * hi
    decreases |s|
  {
    if s != [] {
      SumBounds(s[..|s| - 1], lo, hi);
    }
  }

  /** A mean lies within the bounds of its values; in particular the mean
      of equal values is that value. */
  lemma MeanBounds(s: seq<real>, lo: real, hi: real)
    requires |s| > 0
    requires forall i :: 0 <= i < |s| ==> lo <= s[i] <= hi
    ensures lo <= Mean(s) <= hi
  {
    SumBounds(s, lo, hi);
    var n := |s| as real;
    assert n * lo <= Sum(s) <= n * hi;
    assert Sum(s) / n >= lo by {
      assert Sum(s) >= lo * n;
    }
    assert Sum(s) / n <= hi by {
      assert Sum(s) <= hi * n;
    }
  }

  /** `cumsum`: entry `k` is the sum of the first `k + 1` values. */
  function CumSum(s: seq<real>): (r: seq<real>)
    ensures |r| == |s|
    ensures forall k :: 0 <= k < |s| ==> r[k] == Sum(s[..k + 1])
    decreases |s|
  {
    if s == [] then []
    else
      var prefix := CumSum(s[..|s| - 1]);
      PrefixSums(s, prefix);
      prefix + [Sum(s)]
  }

  lemma PrefixSums(s: seq<real>, prefix: seq<real>)
    requires |s| > 0 && |prefix| == |s| - 1
    requires forall k :: 0 <= k < |s| - 1 ==> prefix[k] == Sum(s[..|s| - 1][..k + 1])
    ensures forall k :: 0 <= k < |s| ==> (prefix + [Sum(s)])[k] == Sum(s[..k + 1])
  {
    forall k | 0 <= k < |s|
      ensures (prefix + [Sum(s)])[k] == Sum(s[..k + 1])
    {
      if k < |s| - 1 {
        assert s[..|s| - 1][..k + 1] == s[..k + 1];
      } else {
        assert s[..k + 1] == s;
      }
    }
  }

  /** Consecutive cumulative sums differ by the next value. */
  lemma CumSumStep(s: seq<real>, k: int)
    requires 0 < k < |s|
    ensures CumSum(s)[k] == CumSum(s)[k - 1] + s[k]
  {
    assert s[..k + 1][..k] == s[..k];
  }

  function FirstArgMaxFrom(s: seq<real>, i: int, best: int): (r: int)
    requires 0 <= best < i <= |s|
    requires forall j :: 0 <= j < i ==> s[j] <= s[best]
    requires forall j :: 0 <= j < best ==> s[j] < s[best]
    ensures 0 <= r < |s|
    ensures forall j :: 0 <= j < |s| ==> s[j] <= s[r]
    ensures forall j :: 0 <= j < r ==> s[j] < s[r]
    decreases |s| - i
  {
    if i == |s| then best
    else if s[i] > s[best] then FirstArgMaxFrom(s, i + 1, i)
    else FirstArgMaxFrom(s, i + 1, best)
  }

  /** `idxmax`: the first position holding the largest value. */
  function FirstArgMax(s: seq<real>): (r: int)
    requires |s| > 0
    ensures 0 <= r < |s|
    ensures forall j :: 0 <= j < |s| ==> s[j] <= s[r]
    ensures forall j :: 0 <= j < r ==> s[j] < s[r]
  {
    FirstArgMaxFrom(s, 1, 0)
  }

  /** `int((a == t).argmax())`: the first position holding `t`, and 0 when
      `t` does not occur (argmax of an all-False mask). */
  function ArgMaxEq(a: seq<int>, t: int): (r: int)
    ensures 0 <= r <= if |a| == 0 then 0 else |a| - 1
    ensures (t in a) ==> a[r] == t && t !in a[..r]
    ensures (t !in a) ==> r == 0
  {
    if |a| == 0 then 0
    else if a[0] == t then 0
    else
      var k := ArgMaxEq(a[1..], t);
      if t in a[1..] then (assert a[..k + 1] == [a[0]] + a[1..][..k]; k + 1) else 0
  }

  /** On a strictly ascending axis the first match is the only one. */
  lemma ArgMaxEqAscending(a: seq<int>, j: int)
    requires 0 <= j < |a|
    requires forall i, k :: 0 <= i < k < |a| ==> a[i] < a[k]
    ensures ArgMaxEq(a, a[j]) == j
  {
    assert forall i :: 0 <= i < |a| && i != j ==> a[i] != a[j] by {
      forall i | 0 <= i < |a| && i != j
        ensures a[i] != a[j]
      {
        if i < j { assert a[i] < a[j]; } else { assert a[j] < a[i]; }
      }
    }
  }

  function Dist(a: int, b: int): int {
    if a >= b then a - b else b - a
  }

  function NearestFrom(a: seq<int>, t: int, i: int, best: int): (r: int)
    requires 0 <= best < i <= |a|
    requires forall j :: 0 <= j < i ==> Dist(a[best], t) <= Dist(a[j], t)
    requires forall j :: best < j < i ==> Dist(a[best], t) < Dist(a[j], t)
    ensures 0 <= r < |a|
    ensures forall j :: 0 <= j < |a| ==> Dist(a[r], t) <= Dist(a[j], t)
    ensures forall j :: r < j < |a| ==> Dist(a[r], t) < Dist(a[j], t)
    decreases |a| - i
  {
    if i == |a| then best
    else if Dist(a[i], t) <= Dist(a[best], t) then NearestFrom(a, t, i + 1, i)
    else NearestFrom(a, t, i + 1, best)
  }

  /** `sel(time=t, method="nearest")` on an ascending axis: a position of
      least distance to `t`, the later one on a tie (pandas keeps the right
      neighbour unless the left one is strictly closer). */
  function Nearest(a: seq<int>, t: int): (r: int)
    requires |a| > 0
    ensures 0 <= r < |a|
    ensures forall j :: 0 <= j < |a| ==> Dist(a[r], t) <= Dist(a[j], t)
    ensures forall j :: r < j < |a| ==> Dist(a[r], t) < Dist(a[j], t)
  {
    NearestFrom(a, t, 1, 0)
  }

  /** An exact match is the nearest position. */
  lemma NearestExact(a: seq<int>, t: int, k: int)
    requires 0 <= k < |a| && a[k] == t
    requires forall i, j :: 0 <= i < j < |a| ==> a[i] < a[j]
    ensures Nearest(a, t) == k
  {
  }
}
