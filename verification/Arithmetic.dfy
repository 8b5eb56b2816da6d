/** The few facts about products that the bounds need. */
module Arithmetic {

  lemma Distribute(m: int, y: int, d: int)
    ensures m * (y + d) == m * y + m * d
  {}

  lemma OneMore(m: int, n: nat)
    ensures m * (n + 1) == m * n + m
  {}

  lemma {:induction false} AtLeastFactor(m: int, d: int)
    requires m > 0 && d > 0
    ensures m * d >= m
  {
    if d > 1 {
      AtLeastFactor(m, d - 1);
      Distribute(m, d - 1, 1);
    }
  }

  lemma CancelFactor(m: int, x: int, y: int)
    requires m > 0
    ensures m * x <= m * y ==> x <= y
  {
    if x > y {
      Distribute(m, y, x - y);
      AtLeastFactor(m, x - y);
    }
  }

  lemma FactorGrows(m: int, x: int, y: int)
    requires m > 0
    ensures x <= y ==> m * x <= m * y
  {
    if x < y {
      Distribute(m, x, y - x);
      AtLeastFactor(m, y - x);
    }
  }

  lemma RemainderIsUnique(x: int, m: int, q: int, r: int)
    requires 0 <= r < m && x == m * q + r
    ensures x % m == r
  {
    var d := x / m - q;
    assert x == m * (x / m) + x % m;
    Distribute(m, q, d);
    Distribute(m, q, -d);
    assert m * d == r - x % m;
    if d > 0 {
      AtLeastFactor(m, d);
    } else if d < 0 {
      AtLeastFactor(m, -d);
      assert m * d == -(m * -d);
    }
  }

  /** Counting on in a ring of m positions. */
  lemma NextRemainder(c: nat, m: nat)
    requires m > 0
    ensures (c + 1) % m == if c % m + 1 < m then c % m + 1 else 0
  {
    var q, r := c / m, c % m;
    assert c == m * q + r;
    if r + 1 < m {
      RemainderIsUnique(c + 1, m, q, r + 1);
    } else {
      OneMore(m, q);
      RemainderIsUnique(c + 1, m, q + 1, 0);
    }
  }
}
