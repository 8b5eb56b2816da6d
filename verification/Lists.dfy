/** Sequence vocabulary shared by the models: ranges, flattening, increasing sequences. */
module Lists {

  datatype Option<+T> = None | Some(value: T)

  /** The numbers a, a + 1, ..., b - 1. */
  function Range(a: nat, b: nat): (r: seq<nat>)
    requires a <= b
    ensures |r| == b - a
    ensures forall k :: 0 <= k < |r| ==> r[k] == a + k
  {
    seq(b - a, k requires 0 <= k => a + k)
  }

  function Flatten<T>(xss: seq<seq<T>>): seq<T> {
    if xss == [] then [] else Flatten(xss[..|xss| - 1]) + xss[|xss| - 1]
  }

  lemma CutAt<T>(xs: seq<T>, i: nat)
    requires i <= |xs|
    ensures xs[..i] + xs[i..] == xs
  {}

  lemma FlattenSnoc<T>(xss: seq<seq<T>>, xs: seq<T>)
    ensures Flatten(xss + [xs]) == Flatten(xss) + xs
  {
    assert (xss + [xs])[..|xss|] == xss;
  }

  lemma {:induction false} FlattenHead<T>(xss: seq<seq<T>>)
    requires xss != []
    ensures Flatten(xss) == xss[0] + Flatten(xss[1..])
  {
    var n := |xss| - 1;
    if n == 0 {
      assert xss[..n] == [] && xss[1..] == [];
    } else {
      FlattenHead(xss[..n]);
      assert xss[..n][1..] == xss[1..][..n - 1];
      assert xss[0] + (Flatten(xss[..n][1..]) + xss[n]) == xss[0] + Flatten(xss[..n][1..]) + xss[n];
    }
  }

  function Map<A, B>(f: A -> B, xs: seq<A>): (ys: seq<B>)
    ensures |ys| == |xs|
    ensures forall k :: 0 <= k < |xs| ==> ys[k] == f(xs[k])
  {
    seq(|xs|, k requires 0 <= k < |xs| => f(xs[k]))
  }

  /** Keeps the elements that satisfy p, in order. */
  function Filter<T>(p: T -> bool, xs: seq<T>): seq<T> {
    if xs == [] then []
    else
      var rest := Filter(p, xs[1..]);
      if p(xs[0]) then [xs[0]] + rest else rest
  }

  lemma {:induction false} FilterMembers<T(!new)>(p: T -> bool, xs: seq<T>)
    ensures forall x :: x in Filter(p, xs) <==> x in xs && p(x)
  {
    if xs != [] {
      FilterMembers(p, xs[1..]);
      assert forall x :: x in xs <==> x == xs[0] || x in xs[1..];
    }
  }

  /** Filtering keeps the satisfying elements, each as often as it occurs. */
  lemma {:induction false} FilterCounts<T(!new)>(p: T -> bool, xs: seq<T>)
    ensures forall x :: multiset(Filter(p, xs))[x] == if p(x) then multiset(xs)[x] else 0
  {
    if xs != [] {
      FilterCounts(p, xs[1..]);
      assert xs == [xs[0]] + xs[1..];
    }
  }

  lemma {:induction false} FilterSnoc<T>(p: T -> bool, xs: seq<T>, x: T)
    ensures Filter(p, xs + [x]) == Filter(p, xs) + if p(x) then [x] else []
  {
    if xs == [] {
      assert xs + [x] == [x];
    } else {
      FilterSnoc(p, xs[1..], x);
      assert (xs + [x])[1..] == xs[1..] + [x];
    }
  }

  ghost predicate Increasing(xs: seq<nat>) {
    forall i, j :: 0 <= i < j < |xs| ==> xs[i] < xs[j]
  }

  /** An increasing sequence is determined by its elements. */
  lemma {:induction false} IncreasingUnique(xs: seq<nat>, ys: seq<nat>)
    requires Increasing(xs) && Increasing(ys)
    requires forall n: nat :: n in xs <==> n in ys
    ensures xs == ys
  {
    assert |xs| > 0 ==> xs[0] in xs;
    assert |ys| > 0 ==> ys[0] in ys;
    if xs != [] {
      forall n: nat
        ensures n in xs[1..] <==> n in ys[1..]
      {
        assert n in xs <==> n == xs[0] || n in xs[1..];
        assert n in ys <==> n == ys[0] || n in ys[1..];
      }
      IncreasingUnique(xs[1..], ys[1..]);
    }
  }

  lemma {:induction false} FilterIncreasing(p: nat -> bool, xs: seq<nat>)
    requires Increasing(xs)
    ensures Increasing(Filter(p, xs))
  {
    if xs != [] {
      var rest := Filter(p, xs[1..]);
      FilterIncreasing(p, xs[1..]);
      FilterMembers(p, xs[1..]);
      forall k | 0 <= k < |rest|
        ensures xs[0] < rest[k]
      {
        assert rest[k] in rest;
        assert rest[k] in xs[1..];
      }
    }
  }

  /** Taking one occurrence of x out of two permutations of each other. */
  lemma WithoutOne<T>(fewer: seq<T>, x: T, left: seq<T>, right: seq<T>, ys: seq<T>)
    requires ys == left + [x] + right && multiset(fewer + [x]) == multiset(ys)
    ensures multiset(fewer) == multiset(left + right)
  {
    assert multiset(left + [x] + right) == multiset(left + right) + multiset{x};
    assert multiset(fewer + [x]) == multiset(fewer) + multiset{x};
    assert multiset(fewer) == multiset(fewer) + multiset{x} - multiset{x};
    assert multiset(left + right) == multiset(left + right) + multiset{x} - multiset{x};
  }
}
