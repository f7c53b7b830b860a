/** The interpolated percentile of the multi-seed report (eval/benchmark.py, `_percentile`), unrounded. */
module Percentiles {
  import opened Multiples

  function Insert(x: real, s: seq<real>): seq<real> {
    if s == [] || x <= s[0] then [x] + s else [s[0]] + Insert(x, s[1..])
  }

  function Sort(s: seq<real>): seq<real> {
    if s == [] then [] else Insert(s[0], Sort(s[1..]))
  }

  predicate Ascending(s: seq<real>) {
    forall i, j :: 0 <= i < j < |s| ==> s[i] <= s[j]
  }

  lemma {:induction false} InsertMembers(x: real, s: seq<real>)
    ensures multiset(Insert(x, s)) == multiset(s) + multiset{x}
    ensures forall y :: y in Insert(x, s) <==> y == x || y in s
  {
    if s != [] && s[0] < x {
      InsertMembers(x, s[1..]);
      assert s == [s[0]] + s[1..];
    }
  }

  lemma {:induction false} InsertAscends(x: real, s: seq<real>)
    requires Ascending(s)
    ensures Ascending(Insert(x, s))
  {
    if s != [] && s[0] < x {
      InsertAscends(x, s[1..]);
      InsertMembers(x, s[1..]);
      var rest := Insert(x, s[1..]);
      forall j | 0 <= j < |rest|
        ensures s[0] <= rest[j]
      {
        assert rest[j] in rest;
      }
    }
  }

  lemma {:induction false} SortSorts(s: seq<real>)
    ensures Ascending(Sort(s)) && multiset(Sort(s)) == multiset(s) && |Sort(s)| == |s|
  {
    if s != [] {
      SortSorts(s[1..]);
      InsertAscends(s[0], Sort(s[1..]));
      InsertMembers(s[0], Sort(s[1..]));
      assert s == [s[0]] + s[1..];
      assert |Sort(s)| == |multiset(Sort(s))| == |multiset(s)| == |s|;
    }
  }

  lemma FirstIsLeast(s: seq<real>, t: seq<real>)
    requires s != [] && t != [] && Ascending(t) && multiset(s) == multiset(t)
    ensures t[0] <= s[0]
  {
    assert s[0] in multiset(t);
  }

  lemma {:induction false} AscendingIsUnique(s: seq<real>, t: seq<real>)
    requires Ascending(s) && Ascending(t) && multiset(s) == multiset(t)
    ensures s == t
  {
    assert |s| == |multiset(s)| == |multiset(t)| == |t|;
    if s != [] {
      FirstIsLeast(s, t);
      FirstIsLeast(t, s);
      assert s == [s[0]] + s[1..] && t == [t[0]] + t[1..];
      assert multiset(s[1..]) == multiset(s) - multiset{s[0]};
      assert multiset(t[1..]) == multiset(t) - multiset{t[0]};
      AscendingIsUnique(s[1..], t[1..]);
    }
  }

  /******* Interpolation *******/

  // The value at fractional rank k of an ascending list.
  function Interpolate(vals: seq<real>, k: real): real
    requires vals != [] && 0.0 <= k <= (|vals| - 1) as real
  {
    var f := k.Floor;
    var c := if f + 1 < |vals| - 1 then f + 1 else |vals| - 1;
    if f == c then vals[f] else vals[f] + Part(k - f as real, vals[c] - vals[f])
  }

  function Rank(n: nat, pct: real): (k: real)
    requires n > 0 && 0.0 <= pct <= 100.0
    ensures 0.0 <= k <= (n - 1) as real
  {
    var m := (n - 1) as real;
    NonNegative(m, pct);
    NonNegative(m, 100.0 - pct);
    assert m * 100.0 - m * pct == m * (100.0 - pct);
    m * pct / 100.0
  }

  lemma RankMonotone(n: nat, p: real, q: real)
    requires n > 0 && 0.0 <= p <= q <= 100.0
    ensures Rank(n, p) <= Rank(n, q)
    ensures Rank(n, 0.0) == 0.0 && Rank(n, 100.0) == (n - 1) as real
  {
    NonNegative((n - 1) as real, q - p);
    assert (n - 1) as real * q - (n - 1) as real * p == (n - 1) as real * (q - p);
  }

  function PercentileOfSorted(vals: seq<real>, pct: real): real
    requires 0.0 <= pct <= 100.0
  {
    if vals == [] then 0.0
    else if |vals| == 1 then vals[0]
    else Interpolate(vals, Rank(|vals|, pct))
  }

  function Percentile(values: seq<real>, pct: real): real
    requires 0.0 <= pct <= 100.0
  {
    PercentileOfSorted(Sort(values), pct)
  }

  lemma Scaled(t: real, u: real, d: real)
    requires 0.0 <= t <= u <= 1.0 && 0.0 <= d
    ensures 0.0 <= Part(t, d) <= Part(u, d) <= d
  {
    NonNegative(t, d);
    NonNegative(u - t, d);
    NonNegative(1.0 - u, d);
    assert (u - t) * d == u * d - t * d;
    assert (1.0 - u) * d == d - u * d;
  }

  // Between its two neighbouring ranks.
  lemma InterpolateBetween(vals: seq<real>, k: real)
    requires Ascending(vals) && vals != [] && 0.0 <= k <= (|vals| - 1) as real
    ensures 0 <= k.Floor < |vals|
    ensures vals[k.Floor] <= Interpolate(vals, k)
    ensures k.Floor + 1 < |vals| ==> Interpolate(vals, k) <= vals[k.Floor + 1]
    ensures k.Floor + 1 == |vals| ==> Interpolate(vals, k) == vals[k.Floor]
  {
    var f := k.Floor;
    if f + 1 < |vals| {
      Scaled(k - f as real, k - f as real, vals[f + 1] - vals[f]);
    }
  }

  lemma InterpolateMonotone(vals: seq<real>, k: real, l: real)
    requires Ascending(vals) && vals != [] && 0.0 <= k <= l <= (|vals| - 1) as real
    ensures Interpolate(vals, k) <= Interpolate(vals, l)
  {
    InterpolateBetween(vals, k);
    InterpolateBetween(vals, l);
    if k.Floor == l.Floor {
      if k.Floor + 1 < |vals| {
        var f := k.Floor;
        Scaled(k - f as real, l - f as real, vals[f + 1] - vals[f]);
      }
    } else {
      assert k.Floor + 1 <= l.Floor;
      assert vals[k.Floor + 1] <= vals[l.Floor];
    }
  }

  /******* Main results *******/

  predicate IsLeast(x: real, s: seq<real>) {
    x in s && forall y :: y in s ==> x <= y
  }

  predicate IsGreatest(x: real, s: seq<real>) {
    x in s && forall y :: y in s ==> y <= x
  }

  lemma {:induction false} AscendingEnds(vals: seq<real>)
    requires vals != [] && Ascending(vals)
    ensures IsLeast(vals[0], vals) && IsGreatest(vals[|vals| - 1], vals)
  {
  }

  lemma SameMembers(s: seq<real>, t: seq<real>, x: real)
    requires multiset(s) == multiset(t)
    ensures (IsLeast(x, s) <==> IsLeast(x, t)) && (IsGreatest(x, s) <==> IsGreatest(x, t))
  {
    forall y
      ensures y in s <==> y in t
    {
      assert y in multiset(s) <==> y in multiset(t);
    }
  }

  lemma OrderedOnSorted(vals: seq<real>, p: real, q: real)
    requires vals != [] && Ascending(vals) && 0.0 <= p <= q <= 100.0
    ensures vals[0] <= PercentileOfSorted(vals, p) <= PercentileOfSorted(vals, q) <= vals[|vals| - 1]
    ensures PercentileOfSorted(vals, 0.0) == vals[0] && PercentileOfSorted(vals, 100.0) == vals[|vals| - 1]
  {
    if |vals| > 1 {
      var n := |vals|;
      RankMonotone(n, p, q);
      assert Interpolate(vals, 0.0) == vals[0];
      assert Interpolate(vals, (n - 1) as real) == vals[n - 1];
      InterpolateMonotone(vals, 0.0, Rank(n, p));
      InterpolateMonotone(vals, Rank(n, p), Rank(n, q));
      InterpolateMonotone(vals, Rank(n, q), (n - 1) as real);
    }
  }

  /** For p <= q the percentiles of a non-empty list satisfy min <= P(p) <= P(q) <= max, and the
      extreme percentiles are the minimum and the maximum themselves. */
  lemma PercentilesAreOrdered(values: seq<real>, p: real, q: real, least: real, greatest: real)
    requires values != [] && 0.0 <= p <= q <= 100.0
    requires IsLeast(least, values) && IsGreatest(greatest, values)
    ensures least <= Percentile(values, p) <= Percentile(values, q) <= greatest
    ensures Percentile(values, 0.0) == least && Percentile(values, 100.0) == greatest
  {
    SortSorts(values);
    var vals := Sort(values);
    AscendingEnds(vals);
    SameMembers(values, vals, least);
    SameMembers(values, vals, greatest);
    OrderedOnSorted(vals, p, q);
  }

  /** The order in which the seeds were run does not matter. */
  lemma PercentileIgnoresOrder(values: seq<real>, shuffled: seq<real>, pct: real)
    requires multiset(values) == multiset(shuffled) && 0.0 <= pct <= 100.0
    ensures Percentile(values, pct) == Percentile(shuffled, pct)
  {
    SortSorts(values);
    SortSorts(shuffled);
    AscendingIsUnique(Sort(values), Sort(shuffled));
  }

  lemma OnSegment(vals: seq<real>, k: real, i: nat)
    requires vals != [] && i + 1 < |vals| && i as real <= k <= (i + 1) as real
    ensures Interpolate(vals, k) == vals[i] + Part(k - i as real, vals[i + 1] - vals[i])
  {
    if k == (i + 1) as real {
      assert k.Floor == i + 1;
      WholePart(vals[i + 1] - vals[i]);
    } else {
      assert k.Floor == i;
    }
  }

  // The value p lies on the way from v, at index i, to w, at the next index, where pct hundredths of the
  // way from index 0 to index n - 1 fall.
  predicate OnTheWay(p: real, v: real, w: real, n: nat, pct: real, i: nat) {
    100.0 * (p - v) == ((n - 1) as real * pct - 100.0 * i as real) * (w - v)
  }

  lemma HundredTimes(p: real, v: real, w: real, n: nat, pct: real, i: nat, k: real)
    requires n > 0 && k == (n - 1) as real * pct / 100.0 && p == v + Part(k - i as real, w - v)
    ensures OnTheWay(p, v, w, n, pct, i)
  {
    var x, d := (n - 1) as real * pct, w - v;
    assert 100.0 * (k - i as real) == x - 100.0 * i as real;
    assert 100.0 * ((k - i as real) * d) == (100.0 * (k - i as real)) * d;
  }

  /** Of nothing every percentile is zero; of one value it is that value. */
  lemma PercentileOfFew(x: real, pct: real)
    requires 0.0 <= pct <= 100.0
    ensures Percentile([], pct) == 0.0 && Percentile([x], pct) == x
  {
    assert Sort([x]) == [x];
  }

  // pct hundredths of the way fall between the indices i and i + 1.
  predicate FallsBetween(n: nat, pct: real, i: nat) {
    n > 0 && 100.0 * i as real <= (n - 1) as real * pct <= 100.0 * (i + 1) as real
  }

  lemma SegmentOfRank(n: nat, pct: real, i: nat) returns (k: real)
    requires 0.0 <= pct <= 100.0 && FallsBetween(n, pct, i)
    ensures k == Rank(n, pct) && i as real <= k <= (i + 1) as real
  {
    k := Rank(n, pct);
  }

  lemma RankOnTheWay(p: real, v: real, w: real, n: nat, pct: real, i: nat, k: real)
    requires n > 0 && 0.0 <= pct <= 100.0 && k == Rank(n, pct) && p == v + Part(k - i as real, w - v)
    ensures OnTheWay(p, v, w, n, pct, i)
  {
    HundredTimes(p, v, w, n, pct, i, k);
  }

  lemma SortedIsLinear(vals: seq<real>, pct: real, i: nat)
    requires i + 1 < |vals| && 0.0 <= pct <= 100.0 && FallsBetween(|vals|, pct, i)
    ensures OnTheWay(PercentileOfSorted(vals, pct), vals[i], vals[i + 1], |vals|, pct, i)
  {
    var k := SegmentOfRank(|vals|, pct, i);
    OnSegment(vals, k, i);
    RankOnTheWay(Interpolate(vals, k), vals[i], vals[i + 1], |vals|, pct, i, k);
  }

  /** Between two neighbouring values of the ordered list the percentile runs along the straight line: pct
      hundredths of the way from the first to the last index, from v(i) towards v(i + 1). */
  lemma PercentileIsLinear(values: seq<real>, vals: seq<real>, pct: real, i: nat)
    requires Ascending(vals) && multiset(vals) == multiset(values) && i + 1 < |vals|
    requires 0.0 <= pct <= 100.0 && FallsBetween(|vals|, pct, i)
    ensures OnTheWay(Percentile(values, pct), vals[i], vals[i + 1], |vals|, pct, i)
  {
    SortSorts(values);
    AscendingIsUnique(Sort(values), vals);
    SortedIsLinear(vals, pct, i);
  }
}
