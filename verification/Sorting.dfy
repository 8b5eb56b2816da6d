/** Sorting by a total preorder, as the language's library does it. */
module Sorting {

  ghost predicate TotalOrder<T(!new)>(leq: (T, T) -> bool) {
    && (forall a, b :: leq(a, b) || leq(b, a))
    && (forall a, b, c :: leq(a, b) && leq(b, c) ==> leq(a, c))
  }

  ghost predicate Ascending<T>(leq: (T, T) -> bool, xs: seq<T>) {
    forall i, j :: 0 <= i < j < |xs| ==> leq(xs[i], xs[j])
  }

  function Insert<T>(leq: (T, T) -> bool, x: T, xs: seq<T>): seq<T> {
    if xs == [] || leq(x, xs[0]) then [x] + xs else [xs[0]] + Insert(leq, x, xs[1..])
  }

  function Sort<T>(leq: (T, T) -> bool, xs: seq<T>): seq<T> {
    if xs == [] then [] else Insert(leq, xs[0], Sort(leq, xs[1..]))
  }

  lemma {:induction false} InsertPermutes<T>(leq: (T, T) -> bool, x: T, xs: seq<T>)
    ensures multiset(Insert(leq, x, xs)) == multiset(xs) + multiset{x}
  {
    if xs != [] && !leq(x, xs[0]) {
      InsertPermutes(leq, x, xs[1..]);
      assert xs == [xs[0]] + xs[1..];
    }
  }

  lemma SameLength<T>(xs: seq<T>, ys: seq<T>)
    requires multiset(xs) == multiset(ys)
    ensures |xs| == |ys|
  {
    assert |multiset(xs)| == |xs| && |multiset(ys)| == |ys|;
  }

  lemma {:induction false} SortPermutes<T>(leq: (T, T) -> bool, xs: seq<T>)
    ensures multiset(Sort(leq, xs)) == multiset(xs)
    ensures |Sort(leq, xs)| == |xs|
  {
    if xs != [] {
      SortPermutes(leq, xs[1..]);
      InsertPermutes(leq, xs[0], Sort(leq, xs[1..]));
      assert xs == [xs[0]] + xs[1..];
    }
    SameLength(Sort(leq, xs), xs);
  }

  lemma PrependAscending<T(!new)>(leq: (T, T) -> bool, x: T, xs: seq<T>)
    requires Ascending(leq, xs) && forall y :: y in xs ==> leq(x, y)
    ensures Ascending(leq, [x] + xs)
  {}

  lemma {:induction false} InsertAscending<T(!new)>(leq: (T, T) -> bool, x: T, xs: seq<T>)
    requires TotalOrder(leq) && Ascending(leq, xs)
    ensures Ascending(leq, Insert(leq, x, xs))
  {
    if xs != [] {
      if leq(x, xs[0]) {
        forall y | y in xs
          ensures leq(x, y)
        {
          var k :| 0 <= k < |xs| && xs[k] == y;
          assert k > 0 ==> leq(xs[0], xs[k]);
        }
        PrependAscending(leq, x, xs);
      } else {
        var rest := Insert(leq, x, xs[1..]);
        InsertAscending(leq, x, xs[1..]);
        InsertPermutes(leq, x, xs[1..]);
        forall y | y in rest
          ensures leq(xs[0], y)
        {
          assert y in multiset(rest);
          if y != x {
            assert y in multiset(xs[1..]);
            var k :| 0 <= k < |xs[1..]| && xs[1..][k] == y;
            assert xs[k + 1] == y;
          }
        }
        PrependAscending(leq, xs[0], rest);
      }
    } else {
      PrependAscending(leq, x, xs);
    }
  }

  lemma {:induction false} SortAscending<T(!new)>(leq: (T, T) -> bool, xs: seq<T>)
    requires TotalOrder(leq)
    ensures Ascending(leq, Sort(leq, xs))
  {
    if xs != [] {
      SortAscending(leq, xs[1..]);
      InsertAscending(leq, xs[0], Sort(leq, xs[1..]));
    }
  }
}
