/** The nearest-rank percentile of the benchmark summary, over the reals. */
module Percentile {
  import opened Lists
  import opened Sorting

  predicate Leq(x: real, y: real) {
    x <= y
  }

  lemma SampleOrder(data: seq<real>)
    ensures Ascending(Leq, Sort(Leq, data))
    ensures |Sort(Leq, data)| == |data| && multiset(Sort(Leq, data)) == multiset(data)
  {
    SortAscending(Leq, data);
    SortPermutes(Leq, data);
  }

  lemma LeastFirst(xs: seq<real>, x: real)
    requires Ascending(Leq, xs) && x in multiset(xs)
    ensures xs != [] && xs[0] <= x
  {
    assert x in xs;
  }

  /** A multiset has one ascending arrangement. */
  lemma {:induction false} AscendingUnique(xs: seq<real>, ys: seq<real>)
    requires Ascending(Leq, xs) && Ascending(Leq, ys) && multiset(xs) == multiset(ys)
    ensures xs == ys
  {
    SameLength(xs, ys);
    if xs != [] {
      assert xs[0] in multiset(xs) && ys[0] in multiset(ys);
      LeastFirst(xs, ys[0]);
      LeastFirst(ys, xs[0]);
      TailsAgree(xs, ys);
      AscendingUnique(xs[1..], ys[1..]);
    }
  }

  lemma TailsAgree(xs: seq<real>, ys: seq<real>)
    requires xs != [] && ys != [] && xs[0] == ys[0] && multiset(xs) == multiset(ys)
    ensures multiset(xs[1..]) == multiset(ys[1..])
    ensures xs[1..] == ys[1..] ==> xs == ys
  {
    assert xs == [xs[0]] + xs[1..] && ys == [ys[0]] + ys[1..];
    assert multiset(xs[1..]) == multiset(xs) - multiset{xs[0]};
    assert multiset(ys[1..]) == multiset(ys) - multiset{ys[0]};
  }

  function Ceil(x: real): int {
    -(-x).Floor
  }

  /** The clamped index into the sorted data. */
  function Rank(n: nat, pct: real): nat
    requires n > 0
    ensures Rank(n, pct) < n
  {
    var idx := Ceil(pct * n as real) - 1;
    if idx < 0 then 0 else if idx > n - 1 then n - 1 else idx
  }

  function Percentile(data: seq<real>, pct: real): real {
    if data == [] then 0.0
    else
      SampleOrder(data);
      Sort(Leq, data)[Rank(|data|, pct)]
  }

  // ----- what the result means -----

  function AtMost(v: real, xs: seq<real>): nat {
    if xs == [] then 0 else AtMost(v, xs[..|xs| - 1]) + if xs[|xs| - 1] <= v then 1 else 0
  }

  function Below(v: real, xs: seq<real>): nat {
    if xs == [] then 0 else Below(v, xs[..|xs| - 1]) + if xs[|xs| - 1] < v then 1 else 0
  }

  lemma {:induction false} CountsConcat(v: real, xs: seq<real>, ys: seq<real>)
    ensures AtMost(v, xs + ys) == AtMost(v, xs) + AtMost(v, ys)
    ensures Below(v, xs + ys) == Below(v, xs) + Below(v, ys)
  {
    if ys == [] {
      assert xs + ys == xs;
    } else {
      CountsConcat(v, xs, ys[..|ys| - 1]);
      assert (xs + ys)[..|xs + ys| - 1] == xs + ys[..|ys| - 1];
    }
  }

  lemma {:induction false} CountsWithin(v: real, xs: seq<real>)
    ensures AtMost(v, xs) <= |xs| && Below(v, xs) <= |xs|
    ensures (forall k :: 0 <= k < |xs| ==> xs[k] <= v) ==> AtMost(v, xs) == |xs|
    ensures (forall k :: 0 <= k < |xs| ==> xs[k] >= v) ==> Below(v, xs) == 0
  {
    if xs != [] { CountsWithin(v, xs[..|xs| - 1]); }
  }

  lemma {:induction false} CountsOfPermutation(v: real, xs: seq<real>, ys: seq<real>)
    requires multiset(xs) == multiset(ys)
    ensures AtMost(v, xs) == AtMost(v, ys) && Below(v, xs) == Below(v, ys)
  {
    SameLength(xs, ys);
    if xs != [] {
      var fewer, x := xs[..|xs| - 1], xs[|xs| - 1];
      assert xs == fewer + [x];
      assert x in multiset(ys);
      var j :| 0 <= j < |ys| && ys[j] == x;
      WithoutOne(fewer, x, ys[..j], ys[j + 1..], ys);
      CountsOfPermutation(v, fewer, ys[..j] + ys[j + 1..]);
      CountsAround(v, ys, j);
    }
  }

  lemma CountsAround(v: real, ys: seq<real>, j: nat)
    requires j < |ys|
    ensures AtMost(v, ys) == AtMost(v, ys[..j] + ys[j + 1..]) + if ys[j] <= v then 1 else 0
    ensures Below(v, ys) == Below(v, ys[..j] + ys[j + 1..]) + if ys[j] < v then 1 else 0
  {
    assert ys == ys[..j + 1] + ys[j + 1..] && ys[..j + 1][..j] == ys[..j];
    CountsConcat(v, ys[..j + 1], ys[j + 1..]);
    CountsConcat(v, ys[..j], ys[j + 1..]);
  }

  lemma InOrder(s: seq<real>, i: nat, j: nat)
    requires Ascending(Leq, s) && i <= j < |s|
    ensures s[i] <= s[j]
  {
    if i < j { assert Leq(s[i], s[j]); }
  }

  /** In ascending data, position i has at least i + 1 values up to its own and at most i below it. */
  lemma CountsAtPosition(s: seq<real>, i: nat)
    requires Ascending(Leq, s) && i < |s|
    ensures AtMost(s[i], s) >= i + 1
    ensures Below(s[i], s) <= i
  {
    UpToPosition(s, i);
    BelowAtPosition(s, i);
  }

  lemma UpToPosition(s: seq<real>, i: nat)
    requires Ascending(Leq, s) && i < |s|
    ensures AtMost(s[i], s) >= i + 1
  {
    var v, front := s[i], s[..i + 1];
    forall k | 0 <= k < |front|
      ensures front[k] <= v
    {
      InOrder(s, k, i);
    }
    CountsWithin(v, front);
    CountsConcat(v, front, s[i + 1..]);
    CutAt(s, i + 1);
  }

  lemma BelowAtPosition(s: seq<real>, i: nat)
    requires Ascending(Leq, s) && i < |s|
    ensures Below(s[i], s) <= i
  {
    var v, back := s[i], s[i..];
    forall k | 0 <= k < |back|
      ensures back[k] >= v
    {
      InOrder(s, i, i + k);
    }
    CountsWithin(v, s[..i]);
    CountsWithin(v, back);
    CountsConcat(v, s[..i], back);
    CutAt(s, i);
  }

  lemma {:induction false} SmallerCounts(u: real, v: real, xs: seq<real>)
    requires u < v
    ensures AtMost(u, xs) <= Below(v, xs)
  {
    if xs != [] { SmallerCounts(u, v, xs[..|xs| - 1]); }
  }

  lemma RankInRange(n: nat, pct: real)
    requires n > 0 && 0.0 < pct <= 1.0
    ensures Rank(n, pct) == Ceil(pct * n as real) - 1
    ensures Rank(n, pct) as real < pct * n as real <= (Rank(n, pct) + 1) as real
  {
    var x := pct * n as real;
    assert 0.0 < x <= n as real;
  }

  /**
   Nearest rank: for 0 < pct <= 1 the result is the least sample with at least pct * n samples up to
   it, and fewer than pct * n samples lie below it.
   */
  lemma {:induction false} NearestRank(data: seq<real>, pct: real)
    requires data != [] && 0.0 < pct <= 1.0
    ensures
      var v, share := Percentile(data, pct), pct * |data| as real;
      && v in data
      && AtMost(v, data) as real >= share
      && (Below(v, data) as real) < share
      && forall u :: u in data && AtMost(u, data) as real >= share ==> v <= u
  {
    RankInRange(|data|, pct);
    RankedSample(data, Rank(|data|, pct), pct * |data| as real);
  }

  lemma RankedSample(data: seq<real>, i: nat, share: real)
    requires i < |data| && i as real < share <= (i + 1) as real
    ensures |Sort(Leq, data)| == |data|
    ensures
      var v := Sort(Leq, data)[i];
      && v in data
      && AtMost(v, data) as real >= share
      && (Below(v, data) as real) < share
      && forall u :: u in data && AtMost(u, data) as real >= share ==> v <= u
  {
    PositionInData(data, i);
    var v := Sort(Leq, data)[i];
    forall u | u in data && u < v
      ensures AtMost(u, data) <= Below(v, data)
    {
      SmallerCounts(u, v, data);
    }
  }

  /** The sorted sample at position i, counted in the data as given. */
  lemma PositionInData(data: seq<real>, i: nat)
    requires i < |data|
    ensures |Sort(Leq, data)| == |data|
    ensures var v := Sort(Leq, data)[i]; v in data && AtMost(v, data) >= i + 1 && Below(v, data) <= i
  {
    var s := Sort(Leq, data);
    SampleOrder(data);
    assert s[i] in multiset(s);
    CountsAtPosition(s, i);
    CountsOfPermutation(s[i], s, data);
  }

  /** The order of the samples does not matter. */
  lemma {:induction false} PermutationInvariant(data: seq<real>, other: seq<real>, pct: real)
    requires multiset(data) == multiset(other)
    ensures Percentile(data, pct) == Percentile(other, pct)
  {
    SameLength(data, other);
    SampleOrder(data);
    SampleOrder(other);
    AscendingUnique(Sort(Leq, data), Sort(Leq, other));
  }

  lemma CeilMonotone(x: real, y: real)
    requires x <= y
    ensures Ceil(x) <= Ceil(y)
  {}

  lemma ScaleMonotone(p: real, q: real, n: real)
    requires p <= q && n >= 0.0
    ensures p * n <= q * n
  {
    assert (q - p) * n >= 0.0;
  }

  lemma RankMonotone(n: nat, p: real, q: real)
    requires n > 0 && p <= q
    ensures Rank(n, p) <= Rank(n, q)
  {
    ScaleMonotone(p, q, n as real);
    CeilMonotone(p * n as real, q * n as real);
  }

  /** A larger share never gives a smaller result. */
  lemma MonotoneInShare(data: seq<real>, p: real, q: real)
    requires p <= q
    ensures Percentile(data, p) <= Percentile(data, q)
  {
    if data != [] {
      RankMonotone(|data|, p, q);
      SampleOrder(data);
      InOrder(Sort(Leq, data), Rank(|data|, p), Rank(|data|, q));
    }
  }

  lemma ClampedRank(n: nat, pct: real)
    requires n > 0
    ensures pct <= 0.0 ==> Rank(n, pct) == 0
    ensures pct >= 1.0 ==> Rank(n, pct) == n - 1
  {
    if pct <= 0.0 {
      ScaleMonotone(pct, 0.0, n as real);
      CeilMonotone(pct * n as real, 0.0);
    }
    if pct >= 1.0 {
      ScaleMonotone(1.0, pct, n as real);
      CeilMonotone(n as real, pct * n as real);
    }
  }

  /** Outside (0, 1] the rank is clamped: to the least sample below, to the greatest above. */
  lemma ClampedShare(data: seq<real>, pct: real)
    requires data != []
    ensures pct <= 0.0 ==> forall u :: u in data ==> Percentile(data, pct) <= u
    ensures pct >= 1.0 ==> forall u :: u in data ==> u <= Percentile(data, pct)
  {
    var s, n := Sort(Leq, data), |data|;
    SampleOrder(data);
    ClampedRank(n, pct);
    forall u | u in data
      ensures s[0] <= u <= s[n - 1]
    {
      assert u in multiset(s);
      var k :| 0 <= k < |s| && s[k] == u;
      InOrder(s, 0, k);
      InOrder(s, k, n - 1);
    }
  }

  /** The three latencies of a trial summary are in order, and zero when nothing succeeded. */
  lemma SummaryIsOrdered(latencies: seq<real>)
    ensures Percentile(latencies, 0.50) <= Percentile(latencies, 0.95) <= Percentile(latencies, 0.99)
    ensures latencies == [] ==> forall pct :: Percentile(latencies, pct) == 0.0
  {
    MonotoneInShare(latencies, 0.50, 0.95);
    MonotoneInShare(latencies, 0.95, 0.99);
  }
}
