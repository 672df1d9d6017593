/** Time series of temperature samples and the two xarray operations the
    ingestion applies to them: a stable `sortby("Date")` and
    `sortby("Date").drop_duplicates(dim="Date")`, which keeps the FIRST
    sample of every timestamp. */
module Series {
  import opened Wrappers

  /** One value of a series: a timestamp in seconds since 1970-01-01 and a
      temperature, `None` standing for NaN. */
  datatype Sample = Sample(time: int, temp: Option<real>)

  predicate Sorted(s: seq<Sample>) {
    forall i, j :: 0 <= i < j < |s| ==> s[i].time <= s[j].time
  }

  /** Ascending with no repeated timestamp. */
  predicate StrictlySorted(s: seq<Sample>) {
    forall i, j :: 0 <= i < j < |s| ==> s[i].time < s[j].time
  }

  /** The timestamps occurring in `s`. */
  function Times(s: seq<Sample>): (ts: set<int>)
    ensures forall i :: 0 <= i < |s| ==> s[i].time in ts
    decreases |s|
  {
    if s == [] then {} else {s[0].time} + Times(s[1..])
  }

  lemma {:induction false} TimesAppend(a: seq<Sample>, b: seq<Sample>)
    ensures Times(a + b) == Times(a) + Times(b)
    decreases |a|
  {
    if a != [] {
      assert (a + b)[1..] == a[1..] + b;
      TimesAppend(a[1..], b);
    } else {
      assert a + b == b;
    }
  }

  // ---------------------------------------------------------------------
  // Stable sort by time

  /** Inserts `x` after every sample whose time is not later than its own. */
  function InsertAfterEqual(r: seq<Sample>, x: Sample): (q: seq<Sample>)
    requires Sorted(r)
    ensures Sorted(q) && |q| == |r| + 1
    ensures forall y :: y in q ==> y in r || y == x
    decreases |r|
  {
    if r == [] then [x]
    else if x.time < r[0].time then [x] + r
    else
      var tail := InsertAfterEqual(r[1..], x);
      HeadBelow(r, x, tail);
      [r[0]] + tail
  }

  lemma HeadBelow(r: seq<Sample>, x: Sample, tail: seq<Sample>)
    requires Sorted(r) && r != [] && r[0].time <= x.time
    requires Sorted(tail) && forall y :: y in tail ==> y in r[1..] || y == x
    ensures Sorted([r[0]] + tail)
    ensures forall y :: y in [r[0]] + tail ==> y in r || y == x
  {
    forall j | 0 <= j < |tail| ensures r[0].time <= tail[j].time {
      assert tail[j] in tail;
      if tail[j] != x {
        var k :| 0 <= k < |r[1..]| && r[1..][k] == tail[j];
        assert r[k + 1] == tail[j];
      }
    }
    forall y | y in [r[0]] + tail ensures y in r || y == x {
      if y != r[0] {
        assert y in tail;
        if y != x {
          assert y in r[1..];
          var k :| 0 <= k < |r[1..]| && r[1..][k] == y;
          assert r[k + 1] == y;
        }
      }
    }
  }

  lemma {:induction false} InsertAfterEqualPermutes(r: seq<Sample>, x: Sample)
    requires Sorted(r)
    ensures multiset(InsertAfterEqual(r, x)) == multiset(r) + multiset{x}
    decreases |r|
  {
    if r != [] && x.time >= r[0].time {
      InsertAfterEqualPermutes(r[1..], x);
      assert r == [r[0]] + r[1..];
    }
  }

  /** `sortby("Date")`: a stable sort on the timestamps. */
  function SortByTime(s: seq<Sample>): (r: seq<Sample>)
    ensures Sorted(r) && |r| == |s|
    decreases |s|
  {
    if s == [] then [] else InsertAfterEqual(SortByTime(s[..|s| - 1]), s[|s| - 1])
  }

  /** Sorting only reorders the samples. */
  lemma {:induction false} SortByTimePermutes(s: seq<Sample>)
    ensures multiset(SortByTime(s)) == multiset(s)
    decreases |s|
  {
    if s != [] {
      SortByTimePermutes(s[..|s| - 1]);
      InsertAfterEqualPermutes(SortByTime(s[..|s| - 1]), s[|s| - 1]);
      assert s == s[..|s| - 1] + [s[|s| - 1]];
    }
  }

  // ---------------------------------------------------------------------
  // Sort and drop duplicates, keeping the first sample of each time

  /** The first sample of `s` whose time is `t`, if any. */
  function First(s: seq<Sample>, t: int): (x: Option<Sample>)
    ensures x.Some? <==> t in Times(s)
    ensures x.Some? ==> x.value in s && x.value.time == t
    decreases |s|
  {
    if s == [] then None
    else if s[0].time == t then Some(s[0])
    else
      var x := First(s[1..], t);
      assert x.Some? ==> x.value in s;
      x
  }

  /** Appending samples does not change the first sample of a time already
      present. */
  lemma {:induction false} FirstAppend(s: seq<Sample>, u: seq<Sample>, t: int)
    requires t in Times(s)
    ensures First(s + u, t) == First(s, t)
    decreases |s|
  {
    if s[0].time != t {
      assert (s + u)[1..] == s[1..] + u;
      FirstAppend(s[1..], u, t);
    }
  }

  /** A sample with a new time is the first of its time once appended. */
  lemma {:induction false} FirstOfNew(s: seq<Sample>, x: Sample)
    requires x.time !in Times(s)
    ensures First(s + [x], x.time) == Some(x)
    decreases |s|
  {
    if s != [] {
      assert (s + [x])[1..] == s[1..] + [x];
      FirstOfNew(s[1..], x);
    }
  }

  /** Inserts `x` into a strictly ascending series unless its time is
      already present, in which case the present sample is kept. */
  function InsertKeep(r: seq<Sample>, x: Sample): (q: seq<Sample>)
    requires StrictlySorted(r)
    ensures StrictlySorted(q)
    ensures Times(q) == Times(r) + {x.time}
    ensures x.time in Times(r) ==> q == r
    ensures forall y :: y in q ==> y in r || y == x
    decreases |r|
  {
    if r == [] then [x]
    else if x.time < r[0].time then
      assert ([x] + r)[1..] == r;
      TimesFrom(r, x.time);
      [x] + r
    else if x.time == r[0].time then r
    else
      var tail := InsertKeep(r[1..], x);
      KeepHead(r, x, tail);
      [r[0]] + tail
  }

  lemma TimesFrom(r: seq<Sample>, t: int)
    requires StrictlySorted(r) && r != [] && t < r[0].time
    ensures t !in Times(r)
  {
    if t in Times(r) {
      var i := TimeWitness(r, t);
    }
  }

  lemma KeepHead(r: seq<Sample>, x: Sample, tail: seq<Sample>)
    requires StrictlySorted(r) && r != [] && r[0].time < x.time
    requires StrictlySorted(tail)
    requires forall y :: y in tail ==> y in r[1..] || y == x
    ensures StrictlySorted([r[0]] + tail)
    ensures ([r[0]] + tail)[1..] == tail
  {
    forall j | 0 <= j < |tail| ensures r[0].time < tail[j].time {
      assert tail[j] in tail;
      if tail[j] != x {
        var k :| 0 <= k < |r[1..]| && r[1..][k] == tail[j];
        assert r[k + 1] == tail[j];
      }
    }
  }

  /** `sortby("Date").drop_duplicates(dim="Date")` (xarray's default keeps
      the first of the duplicates). */
  function SortDedupe(s: seq<Sample>): (r: seq<Sample>)
    ensures StrictlySorted(r)
    ensures Times(r) == Times(s)
    ensures forall i :: 0 <= i < |r| ==> First(s, r[i].time) == Some(r[i])
    decreases |s|
  {
    if s == [] then []
    else
      var init := s[..|s| - 1];
      var x := s[|s| - 1];
      var prev := SortDedupe(init);
      var r := InsertKeep(prev, x);
      assert s == init + [x];
      TimesAppend(init, [x]);
      SortDedupeStep(init, x, prev, r);
      r
  }

  lemma SortDedupeStep(init: seq<Sample>, x: Sample, prev: seq<Sample>, r: seq<Sample>)
    requires Times(prev) == Times(init)
    requires forall i :: 0 <= i < |prev| ==> First(init, prev[i].time) == Some(prev[i])
    requires forall y :: y in r ==> y in prev || y == x
    requires x.time in Times(init) ==> r == prev
    ensures forall i :: 0 <= i < |r| ==> First(init + [x], r[i].time) == Some(r[i])
  {
    forall i | 0 <= i < |r|
      ensures First(init + [x], r[i].time) == Some(r[i])
    {
      var y := r[i];
      assert y in r;
      if y in prev {
        var k :| 0 <= k < |prev| && prev[k] == y;
        FirstAppend(init, [x], y.time);
      } else {
        FirstOfNew(init, x);
      }
    }
  }

  /** A time of `s` is the time of one of its samples. */
  lemma {:induction false} TimeWitness(s: seq<Sample>, t: int) returns (i: int)
    requires t in Times(s)
    ensures 0 <= i < |s| && s[i].time == t
    decreases |s|
  {
    if s[0].time == t {
      i := 0;
    } else {
      var k := TimeWitness(s[1..], t);
      i := k + 1;
    }
  }

  /** In a strictly ascending series the first sample of a time is the only
      one. */
  lemma FirstOfStrict(s: seq<Sample>, i: int)
    requires StrictlySorted(s) && 0 <= i < |s|
    ensures First(s, s[i].time) == Some(s[i])
  {
    var x := First(s, s[i].time);
    var k :| 0 <= k < |s| && s[k] == x.value;
  }

  /** Two strictly ascending series that hold the same samples are equal. */
  lemma {:induction false} StrictlySortedUnique(a: seq<Sample>, b: seq<Sample>)
    requires StrictlySorted(a) && StrictlySorted(b)
    requires forall x :: x in a <==> x in b
    ensures a == b
    decreases |a|
  {
    if a != [] {
      assert a[0] in b;
    }
    if b != [] {
      assert b[0] in a;
    }
    if a != [] && b != [] {
      SortedHeadsEqual(a, b);
      forall x ensures x in a[1..] <==> x in b[1..] {
        if x in a[1..] {
          assert x in b;
          SortedTailIn(a, b, x);
        }
        if x in b[1..] {
          assert x in a;
          SortedTailIn(b, a, x);
        }
      }
      StrictlySortedUnique(a[1..], b[1..]);
      assert a == [a[0]] + a[1..] && b == [b[0]] + b[1..];
    }
  }

  /** Two strictly ascending series holding each other's first samples
      start with the same sample. */
  lemma SortedHeadsEqual(a: seq<Sample>, b: seq<Sample>)
    requires StrictlySorted(a) && StrictlySorted(b) && a != [] && b != []
    requires a[0] in b && b[0] in a
    ensures a[0] == b[0]
  {
    var k :| 0 <= k < |b| && b[k] == a[0];
    var m :| 0 <= m < |a| && a[m] == b[0];
    assert a[0].time <= a[m].time == b[0].time;
  }

  /** With equal heads, a later sample of `a` that `b` holds is a later
      sample of `b`. */
  lemma SortedTailIn(a: seq<Sample>, b: seq<Sample>, x: Sample)
    requires StrictlySorted(a) && StrictlySorted(b) && a != [] && b != [] && a[0] == b[0]
    requires x in a[1..] && x in b
    ensures x in b[1..]
  {
    var p :| 0 <= p < |a[1..]| && a[1..][p] == x;
    assert a[p + 1] == x && a[0].time < x.time;
    var q :| 0 <= q < |b| && b[q] == x;
    assert q != 0 && b[1..][q - 1] == x;
  }

  /** Sorting and deduplicating a series that already is strictly
      ascending changes nothing: the merge is idempotent. */
  lemma SortDedupeIdempotent(s: seq<Sample>)
    requires StrictlySorted(s)
    ensures SortDedupe(s) == s
  {
    var r := SortDedupe(s);
    forall x ensures x in r <==> x in s {
      if x in r {
        var i :| 0 <= i < |r| && r[i] == x;
        assert First(s, x.time) == Some(x);
      }
      if x in s {
        var i :| 0 <= i < |s| && s[i] == x;
        FirstOfStrict(s, i);
        var j := TimeWitness(r, x.time);
        assert First(s, x.time) == Some(r[j]);
      }
    }
    StrictlySortedUnique(r, s);
  }

  /** Merging new samples into a store keeps the stored sample of every
      time the store already has. */
  lemma MergeKeepsStored(store: seq<Sample>, added: seq<Sample>, i: int)
    requires StrictlySorted(store) && 0 <= i < |store|
    ensures store[i] in SortDedupe(store + added)
  {
    var r := SortDedupe(store + added);
    TimesAppend(store, added);
    var j := TimeWitness(r, store[i].time);
    FirstOfStrict(store, i);
    FirstAppend(store, added, store[i].time);
  }
  // ---------------------------------------------------------------------
  // Selecting a time range

  /** Whether `t` lies in the label range `slice(lo, hi)`, a missing lower
      bound standing for `None`. */
  predicate InRange(t: int, lo: Option<int>, hi: int) {
    (lo.None? || lo.value <= t) && t <= hi
  }

  /** `sel(Date=slice(lo, hi))`: the samples whose time lies in the range,
      in their order. */
  function Select(s: seq<Sample>, lo: Option<int>, hi: int): (r: seq<Sample>)
    ensures forall x :: x in r ==> x in s && InRange(x.time, lo, hi)
    ensures forall i :: 0 <= i < |s| && InRange(s[i].time, lo, hi) ==> s[i] in r
    ensures |r| <= |s|
    decreases |s|
  {
    if s == [] then []
    else
      var init := Select(s[..|s| - 1], lo, hi);
      var x := s[|s| - 1];
      SelectStep(s, init);
      if InRange(x.time, lo, hi) then init + [x] else init
  }

  lemma SelectStep(s: seq<Sample>, init: seq<Sample>)
    requires s != []
    ensures forall x :: x in init + [s[|s| - 1]] ==> x in init || x == s[|s| - 1]
    ensures forall x :: x in s[..|s| - 1] ==> x in s
    ensures forall i :: 0 <= i < |s| - 1 ==> s[i] == s[..|s| - 1][i]
  {
  }

  /** Selecting from an ascending series keeps it ascending. */
  lemma {:induction false} SelectSorted(s: seq<Sample>, lo: Option<int>, hi: int)
    requires Sorted(s)
    ensures Sorted(Select(s, lo, hi))
    decreases |s|
  {
    if s != [] {
      var init := s[..|s| - 1];
      var x := s[|s| - 1];
      SelectSorted(init, lo, hi);
      var r := Select(init, lo, hi);
      forall j | 0 <= j < |r| ensures r[j].time <= x.time {
        assert r[j] in r;
        var k :| 0 <= k < |init| && init[k] == r[j];
        assert s[k] == r[j];
      }
    }
  }
}
