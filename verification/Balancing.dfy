/**
 What least-outstanding routing achieves over many selections: no placement of the same requests
 is better balanced, idle workers fill evenly up to their cap, and ties rotate fairly.
 */
module Balancing {
  import opened Arithmetic
  import opened Lists
  import opened Scheduling

  type Loads = map<string, int>

  /** The pool after n selections without release or exclusion; none if one of them fails. */
  function Admitted(order: seq<string>, pool: Pool, cap: int, n: nat): Option<Pool> {
    if n == 0 then Some(pool)
    else
      match Admitted(order, pool, cap, n - 1)
      case None => None
      case Some(p) =>
        match Select(order, p, cap, {})
        case Selected(_, p') => Some(p')
        case _ => None
  }

  function LoadsOf(ids: seq<string>, nodes: map<string, Node>): (loads: Loads)
    ensures Covers(ids, loads)
  {
    map id | id in ids :: Load(nodes, id)
  }

  function Total(ids: seq<string>, loads: Loads): int
    requires Covers(ids, loads)
  {
    if ids == [] then 0 else loads[ids[0]] + Total(ids[1..], loads)
  }

  /** How much of the load lies above level t. */
  function Excess(ids: seq<string>, loads: Loads, t: int): int
    requires Covers(ids, loads)
  {
    if ids == [] then 0
    else (if loads[ids[0]] > t then loads[ids[0]] - t else 0) + Excess(ids[1..], loads, t)
  }

  predicate Covers(ids: seq<string>, loads: Loads) {
    forall k :: 0 <= k < |ids| ==> ids[k] in loads
  }

  /** Whatever was raised lies at most one above everything else. */
  ghost predicate Levelled(ids: seq<string>, before: Loads, after: Loads)
    requires Covers(ids, before) && Covers(ids, after)
  {
    forall i, j :: 0 <= i < |ids| && 0 <= j < |ids| ==>
      && before[ids[i]] <= after[ids[i]]
      && (after[ids[i]] > before[ids[i]] ==> after[ids[i]] <= after[ids[j]] + 1)
  }

  // ----- one selection -----

  lemma {:induction false} FilterDistinct<T(!new)>(p: T -> bool, xs: seq<T>)
    requires Distinct(xs)
    ensures Distinct(Filter(p, xs))
  {
    if xs != [] {
      var rest := Filter(p, xs[1..]);
      FilterDistinct(p, xs[1..]);
      FilterMembers(p, xs[1..]);
      forall k | 0 <= k < |rest|
        ensures xs[0] != rest[k]
      {
        assert rest[k] in rest;
        assert rest[k] in xs[1..];
      }
    }
  }

  /** One request is put on w, which carries the least load. */
  ghost predicate RaisesLeast(ids: seq<string>, a: Loads, b: Loads, w: string)
    requires Covers(ids, a) && Covers(ids, b)
  {
    && w in ids && w in a
    && forall k :: 0 <= k < |ids| ==>
         && a[w] <= a[ids[k]]
         && b[ids[k]] == a[ids[k]] + if ids[k] == w then 1 else 0
  }

  lemma {:induction false} TotalRaised(ids: seq<string>, a: Loads, b: Loads, w: string)
    requires Covers(ids, a) && Covers(ids, b) && Distinct(ids)
    requires forall k :: 0 <= k < |ids| ==> b[ids[k]] == a[ids[k]] + if ids[k] == w then 1 else 0
    ensures Total(ids, b) == Total(ids, a) + if w in ids then 1 else 0
  {
    if ids != [] {
      TotalRaised(ids[1..], a, b, w);
      assert w in ids <==> w == ids[0] || w in ids[1..];
    }
  }

  /** A selection raises one least load by one and leaves the healthy set as it is. */
  lemma SelectionRaisesLeast(order: seq<string>, pool: Pool, cap: int)
    requires Registered(order, pool.nodes)
    requires Select(order, pool, cap, {}).Selected?
    ensures
      var Selected(w, pool') := Select(order, pool, cap, {});
      var ids := HealthyIds(order, pool.nodes);
      && Registered(order, pool'.nodes) && HealthyIds(order, pool'.nodes) == ids
      && Distinct(ids) && Load(pool.nodes, w) < cap
      && RaisesLeast(ids, LoadsOf(ids, pool.nodes), LoadsOf(ids, pool'.nodes), w)
  {
    SelectionMeaning(order, pool, cap, {});
    SelectableMembers(order, pool.nodes, cap, {});
    var Selected(w, pool') := Select(order, pool, cap, {});
    FilterDistinct(id => IsHealthy(pool.nodes, id), order);
    SameFilter(id => IsHealthy(pool.nodes, id), id => IsHealthy(pool'.nodes, id), order);
    var ids := HealthyIds(order, pool.nodes);
    forall k | 0 <= k < |ids|
      ensures Load(pool.nodes, w) <= Load(pool.nodes, ids[k])
    {
      assert ids[k] in ids;
    }
  }

  lemma {:induction false} SameFilter<T(!new)>(p: T -> bool, q: T -> bool, xs: seq<T>)
    requires forall x :: p(x) == q(x)
    ensures Filter(p, xs) == Filter(q, xs)
  {
    if xs != [] { SameFilter(p, q, xs[1..]); }
  }

  /** What n selections do to the loads: n are added, levelled, and no raised load exceeds the cap. */
  ghost predicate Levels(ids: seq<string>, a: Loads, b: Loads, n: nat, cap: int)
    requires Covers(ids, a) && Covers(ids, b)
  {
    && Total(ids, b) == Total(ids, a) + n
    && Levelled(ids, a, b)
    && (forall k :: 0 <= k < |ids| ==> b[ids[k]] == a[ids[k]] || b[ids[k]] <= cap)
  }

  lemma RaisingLevels(ids: seq<string>, a: Loads, mid: Loads, b: Loads, w: string, n: nat, cap: int)
    requires Covers(ids, a) && Covers(ids, mid) && Covers(ids, b) && Distinct(ids)
    requires Levels(ids, a, mid, n, cap) && RaisesLeast(ids, mid, b, w) && mid[w] < cap
    ensures Levels(ids, a, b, n + 1, cap)
  {
    TotalRaised(ids, mid, b, w);
    forall i, j | 0 <= i < |ids| && 0 <= j < |ids|
      ensures a[ids[i]] <= b[ids[i]]
      ensures b[ids[i]] > a[ids[i]] ==> b[ids[i]] <= b[ids[j]] + 1
    {
      assert a[ids[i]] <= mid[ids[i]];
      assert mid[ids[i]] > a[ids[i]] ==> mid[ids[i]] <= mid[ids[j]] + 1;
    }
  }

  ghost predicate SameWorkers(order: seq<string>, pool: Pool, after: Pool) {
    && Registered(order, after.nodes)
    && HealthyIds(order, after.nodes) == HealthyIds(order, pool.nodes)
  }

  lemma {:induction false} AdmissionKeepsWorkers(order: seq<string>, pool: Pool, cap: int, n: nat)
    requires Registered(order, pool.nodes)
    requires Admitted(order, pool, cap, n).Some?
    ensures SameWorkers(order, pool, Admitted(order, pool, cap, n).value)
  {
    if n > 0 {
      AdmissionKeepsWorkers(order, pool, cap, n - 1);
      SelectionRaisesLeast(order, Admitted(order, pool, cap, n - 1).value, cap);
    }
  }

  /** The n-th selection, seen on the loads alone. */
  lemma NextAdmission(order: seq<string>, pool: Pool, cap: int, n: nat, ids: seq<string>) returns (w: string)
    requires Registered(order, pool.nodes) && n > 0
    requires Admitted(order, pool, cap, n).Some?
    requires ids == HealthyIds(order, pool.nodes)
    ensures
      var a := LoadsOf(ids, Admitted(order, pool, cap, n - 1).value.nodes);
      var b := LoadsOf(ids, Admitted(order, pool, cap, n).value.nodes);
      RaisesLeast(ids, a, b, w) && a[w] < cap && Distinct(ids)
  {
    AdmissionKeepsWorkers(order, pool, cap, n - 1);
    var mid := Admitted(order, pool, cap, n - 1).value;
    SelectionRaisesLeast(order, mid, cap);
    w := Select(order, mid, cap, {}).worker;
  }

  lemma {:induction false} AdmissionLevels(order: seq<string>, pool: Pool, cap: int, n: nat, ids: seq<string>, a: Loads)
    requires Registered(order, pool.nodes)
    requires Admitted(order, pool, cap, n).Some?
    requires ids == HealthyIds(order, pool.nodes) && a == LoadsOf(ids, pool.nodes)
    ensures Levels(ids, a, LoadsOf(ids, Admitted(order, pool, cap, n).value.nodes), n, cap)
  {
    var b := LoadsOf(ids, Admitted(order, pool, cap, n).value.nodes);
    if n == 0 {
      assert b == a;
    } else {
      var mid := LoadsOf(ids, Admitted(order, pool, cap, n - 1).value.nodes);
      AdmissionLevels(order, pool, cap, n - 1, ids, a);
      var w := NextAdmission(order, pool, cap, n, ids);
      RaisingLevels(ids, a, mid, b, w, n - 1, cap);
    }
  }

  // ----- optimality -----

  lemma {:induction false} ExcessAboveFloor(ids: seq<string>, a: Loads, p: Loads, t: int)
    requires Covers(ids, a) && Covers(ids, p)
    requires forall k :: 0 <= k < |ids| ==> a[ids[k]] >= t
    ensures Excess(ids, a, t) - Total(ids, a) <= Excess(ids, p, t) - Total(ids, p)
  {
    if ids != [] { ExcessAboveFloor(ids[1..], a, p, t); }
  }

  lemma {:induction false} ExcessPointwise(ids: seq<string>, a: Loads, p: Loads, t: int)
    requires Covers(ids, a) && Covers(ids, p)
    requires forall k :: 0 <= k < |ids| && a[ids[k]] > t ==> a[ids[k]] <= p[ids[k]]
    ensures Excess(ids, a, t) <= Excess(ids, p, t)
  {
    if ids != [] { ExcessPointwise(ids[1..], a, p, t); }
  }

  lemma {:induction false} NoExcess(ids: seq<string>, loads: Loads, t: int)
    requires Covers(ids, loads)
    ensures Excess(ids, loads, t) >= 0
    ensures Excess(ids, loads, t) == 0 <==> AllAtMost(ids, loads, t)
  {
    if ids != [] {
      NoExcess(ids[1..], loads, t);
      assert forall k :: 1 <= k < |ids| ==> ids[k] == ids[1..][k - 1];
    }
  }

  predicate AllAtMost(ids: seq<string>, loads: Loads, bound: int)
    requires Covers(ids, loads)
  {
    forall k :: 0 <= k < |ids| ==> loads[ids[k]] <= bound
  }

  /** Another way to place the same number of requests on the same workers. */
  ghost predicate Placement(ids: seq<string>, before: Loads, n: nat, placed: Loads)
    requires Covers(ids, before)
  {
    && Covers(ids, placed)
    && (forall k :: 0 <= k < |ids| ==> before[ids[k]] <= placed[ids[k]])
    && Total(ids, placed) == Total(ids, before) + n
  }

  /**
   Greedy routing is optimal: from any loads, n selections leave no more load above any level
   than any other placement of n requests on the same workers; in particular any bound that
   another placement keeps on every worker, greedy routing keeps too.
   */
  lemma GreedyIsOptimal(order: seq<string>, pool: Pool, cap: int, n: nat, placed: Loads)
    requires Registered(order, pool.nodes)
    requires Admitted(order, pool, cap, n).Some?
    requires var ids := HealthyIds(order, pool.nodes); Placement(ids, LoadsOf(ids, pool.nodes), n, placed)
    ensures
      var ids := HealthyIds(order, pool.nodes);
      var greedy := LoadsOf(ids, Admitted(order, pool, cap, n).value.nodes);
      && (forall t :: Excess(ids, greedy, t) <= Excess(ids, placed, t))
      && (forall bound :: AllAtMost(ids, placed, bound) ==> AllAtMost(ids, greedy, bound))
  {
    var ids := HealthyIds(order, pool.nodes);
    AdmissionLevels(order, pool, cap, n, ids, LoadsOf(ids, pool.nodes));
    var before, greedy := LoadsOf(ids, pool.nodes), LoadsOf(ids, Admitted(order, pool, cap, n).value.nodes);
    forall t
      ensures Excess(ids, greedy, t) <= Excess(ids, placed, t)
    {
      LevelledIsOptimal(ids, before, greedy, placed, t);
    }
    forall bound | AllAtMost(ids, placed, bound)
      ensures AllAtMost(ids, greedy, bound)
    {
      LevelledIsOptimal(ids, before, greedy, placed, bound);
      NoExcess(ids, placed, bound);
      NoExcess(ids, greedy, bound);
    }
  }

  lemma LevelledIsOptimal(ids: seq<string>, before: Loads, after: Loads, placed: Loads, t: int)
    requires Covers(ids, before) && Covers(ids, after) && Covers(ids, placed)
    requires Levelled(ids, before, after)
    requires forall k :: 0 <= k < |ids| ==> before[ids[k]] <= placed[ids[k]]
    requires Total(ids, after) == Total(ids, placed)
    ensures Excess(ids, after, t) <= Excess(ids, placed, t)
  {
    if i :| 0 <= i < |ids| && after[ids[i]] > before[ids[i]] && after[ids[i]] > t {
      ExcessAboveFloor(ids, after, placed, t);
    } else {
      ExcessPointwise(ids, after, placed, t);
    }
  }

  // ----- spread -----

  /** Any two healthy loads differ by at most d. */
  ghost predicate Spread(ids: seq<string>, loads: Loads, d: int)
    requires Covers(ids, loads)
  {
    forall i, j :: 0 <= i < |ids| && 0 <= j < |ids| ==> loads[ids[i]] - loads[ids[j]] <= d
  }

  lemma RaisingKeepsSpread(ids: seq<string>, a: Loads, b: Loads, w: string, d: int)
    requires Covers(ids, a) && Covers(ids, b)
    requires RaisesLeast(ids, a, b, w) && Spread(ids, a, d) && d >= 1
    ensures Spread(ids, b, d)
  {
    forall i, j | 0 <= i < |ids| && 0 <= j < |ids|
      ensures b[ids[i]] - b[ids[j]] <= d
    {
      assert a[ids[i]] - a[ids[j]] <= d;
    }
  }

  lemma {:induction false} AdmissionKeepsSpread(order: seq<string>, pool: Pool, cap: int, n: nat, ids: seq<string>, d: int)
    requires Registered(order, pool.nodes) && d >= 1
    requires ids == HealthyIds(order, pool.nodes) && Spread(ids, LoadsOf(ids, pool.nodes), d)
    requires Admitted(order, pool, cap, n).Some?
    ensures Spread(ids, LoadsOf(ids, Admitted(order, pool, cap, n).value.nodes), d)
  {
    if n > 0 {
      var mid, after := Admitted(order, pool, cap, n - 1).value, Admitted(order, pool, cap, n).value;
      AdmissionKeepsSpread(order, pool, cap, n - 1, ids, d);
      var w := NextAdmission(order, pool, cap, n, ids);
      RaisingKeepsSpread(ids, LoadsOf(ids, mid.nodes), LoadsOf(ids, after.nodes), w, d);
    }
  }

  /** Selections never widen the spread of loads beyond its initial value, or one if that is less. */
  lemma {:induction false} SpreadNeverGrows(order: seq<string>, pool: Pool, cap: int, n: nat, d: int)
    requires Registered(order, pool.nodes) && d >= 1
    requires var ids := HealthyIds(order, pool.nodes); Spread(ids, LoadsOf(ids, pool.nodes), d)
    requires Admitted(order, pool, cap, n).Some?
    ensures
      var ids := HealthyIds(order, pool.nodes);
      Spread(ids, LoadsOf(ids, Admitted(order, pool, cap, n).value.nodes), d)
  {
    AdmissionKeepsSpread(order, pool, cap, n, HealthyIds(order, pool.nodes), d);
  }

  // ----- filling idle workers -----

  lemma {:induction false} TotalWithin(ids: seq<string>, loads: Loads, low: int, high: int)
    requires Covers(ids, loads)
    requires forall k :: 0 <= k < |ids| ==> low <= loads[ids[k]] <= high
    ensures low * |ids| <= Total(ids, loads) <= high * |ids|
  {
    if ids != [] {
      TotalWithin(ids[1..], loads, low, high);
      OneMore(low, |ids| - 1);
      OneMore(high, |ids| - 1);
    }
  }

  /** One load away from the bound leaves the total away from the sum of the bounds. */
  lemma {:induction false} TotalStrictlyWithin(ids: seq<string>, loads: Loads, low: int, high: int, k: nat)
    requires Covers(ids, loads) && k < |ids|
    requires forall j :: 0 <= j < |ids| ==> low <= loads[ids[j]] <= high
    ensures loads[ids[k]] < high ==> Total(ids, loads) < high * |ids|
    ensures loads[ids[k]] > low ==> Total(ids, loads) > low * |ids|
  {
    OneMore(low, |ids| - 1);
    OneMore(high, |ids| - 1);
    TotalWithin(ids[1..], loads, low, high);
    if k > 0 {
      TotalStrictlyWithin(ids[1..], loads, low, high, k - 1);
    }
  }

  ghost predicate Idle(ids: seq<string>, loads: Loads)
    requires Covers(ids, loads)
  {
    forall k :: 0 <= k < |ids| ==> loads[ids[k]] == 0
  }

  /** Levelled from idle, the loads share n as evenly as whole numbers allow. */
  lemma LevelledFromIdle(ids: seq<string>, a: Loads, b: Loads, n: nat, cap: int, k: nat)
    requires Covers(ids, a) && Covers(ids, b) && k < |ids|
    requires Idle(ids, a) && Levels(ids, a, b, n, cap)
    ensures |ids| * (b[ids[k]] - 1) < n < |ids| * (b[ids[k]] + 1)
  {
    var x := b[ids[k]];
    TotalWithin(ids, a, 0, 0);
    assert Total(ids, b) == n;
    forall j | 0 <= j < |ids|
      ensures x - 1 <= b[ids[j]] <= x + 1
    {
      assert a[ids[j]] <= b[ids[j]] && a[ids[k]] <= b[ids[k]];
      assert b[ids[j]] > a[ids[j]] ==> b[ids[j]] <= b[ids[k]] + 1;
      assert b[ids[k]] > a[ids[k]] ==> b[ids[k]] <= b[ids[j]] + 1;
    }
    TotalStrictlyWithin(ids, b, x - 1, x + 1, k);
  }

  lemma IdleLoads(order: seq<string>, pool: Pool, cap: nat, n: nat, ids: seq<string>)
    requires Registered(order, pool.nodes)
    requires ids == HealthyIds(order, pool.nodes) && Idle(ids, LoadsOf(ids, pool.nodes))
    requires Admitted(order, pool, cap, n).Some?
    ensures
      var loads := LoadsOf(ids, Admitted(order, pool, cap, n).value.nodes);
      && Total(ids, loads) == n
      && forall k :: 0 <= k < |ids| ==> 0 <= loads[ids[k]] <= cap
  {
    var a := LoadsOf(ids, pool.nodes);
    AdmissionLevels(order, pool, cap, n, ids, a);
    TotalWithin(ids, a, 0, 0);
    var b := LoadsOf(ids, Admitted(order, pool, cap, n).value.nodes);
    forall k | 0 <= k < |ids|
      ensures 0 <= b[ids[k]] <= cap
    {
      assert a[ids[k]] <= b[ids[k]];
    }
  }

  /** While the loads of capped workers do not add up to `room`, one of them has room; afterwards none has. */
  lemma RoomLeft(ids: seq<string>, loads: Loads, cap: nat, room: int)
    requires Covers(ids, loads) && room == cap * |ids|
    requires forall k :: 0 <= k < |ids| ==> 0 <= loads[ids[k]] <= cap
    ensures Total(ids, loads) <= room
    ensures Total(ids, loads) < room <==> exists k :: 0 <= k < |ids| && loads[ids[k]] < cap
  {
    TotalWithin(ids, loads, 0, cap);
    if k :| 0 <= k < |ids| && loads[ids[k]] < cap {
      TotalStrictlyWithin(ids, loads, 0, cap, k);
    } else {
      TotalWithin(ids, loads, cap, cap);
    }
  }

  /** With some worker healthy, selection succeeds exactly when some healthy worker has room. */
  lemma SelectionNeedsRoom(order: seq<string>, pool: Pool, cap: nat, ids: seq<string>)
    requires ids == HealthyIds(order, pool.nodes) && ids != []
    ensures
      var next := Select(order, pool, cap, {});
      && (next.Selected? <==> exists k :: 0 <= k < |ids| && LoadsOf(ids, pool.nodes)[ids[k]] < cap)
      && (next.Selected? || next == AtCapacity)
  {
    SelectionMeaning(order, pool, cap, {});
    SelectableMembers(order, pool.nodes, cap, {});
    var next := Select(order, pool, cap, {});
    assert ids[0] in ids;
    if next.Selected? {
      var k :| 0 <= k < |ids| && ids[k] == next.worker;
      assert LoadsOf(ids, pool.nodes)[ids[k]] < cap;
    } else {
      forall k | 0 <= k < |ids|
        ensures LoadsOf(ids, pool.nodes)[ids[k]] >= cap
      {
        assert ids[k] in ids;
      }
    }
  }

  lemma NextIdleSelection(order: seq<string>, pool: Pool, cap: nat, n: nat, ids: seq<string>, room: int)
    requires Registered(order, pool.nodes) && room == cap * |ids|
    requires ids == HealthyIds(order, pool.nodes) && ids != [] && Idle(ids, LoadsOf(ids, pool.nodes))
    requires Admitted(order, pool, cap, n).Some?
    ensures
      var next := Select(order, Admitted(order, pool, cap, n).value, cap, {});
      && n <= room
      && (next.Selected? <==> n < room)
      && (next.Selected? || next == AtCapacity)
  {
    var mid := Admitted(order, pool, cap, n).value;
    AdmissionKeepsWorkers(order, pool, cap, n);
    IdleLoads(order, pool, cap, n, ids);
    RoomLeft(ids, LoadsOf(ids, mid.nodes), cap, room);
    SelectionNeedsRoom(order, mid, cap, ids);
  }

  /** An idle pool whose healthy workers have `room` places in all. */
  ghost predicate IdlePool(order: seq<string>, pool: Pool, cap: nat, ids: seq<string>, room: nat) {
    && Registered(order, pool.nodes)
    && ids == HealthyIds(order, pool.nodes) && ids != []
    && Idle(ids, LoadsOf(ids, pool.nodes))
    && room == cap * |ids|
  }

  lemma OneMoreAdmission(order: seq<string>, pool: Pool, cap: nat, n: nat, ids: seq<string>, room: nat)
    requires IdlePool(order, pool, cap, ids, room)
    requires Admitted(order, pool, cap, n).Some?
    ensures n <= room
    ensures Admitted(order, pool, cap, n + 1).Some? <==> n < room
  {
    NextIdleSelection(order, pool, cap, n, ids, room);
  }

  lemma {:induction false} RoomAdmits(order: seq<string>, pool: Pool, cap: nat, n: nat, ids: seq<string>, room: nat)
    requires IdlePool(order, pool, cap, ids, room) && n <= room
    ensures Admitted(order, pool, cap, n).Some?
  {
    if n > 0 {
      RoomAdmits(order, pool, cap, n - 1, ids, room);
      OneMoreAdmission(order, pool, cap, n - 1, ids, room);
    }
  }

  /** From idle, exactly as many requests are admitted as there are places. */
  lemma IdleAdmission(order: seq<string>, pool: Pool, cap: nat, n: nat, ids: seq<string>, room: nat)
    requires IdlePool(order, pool, cap, ids, room)
    ensures Admitted(order, pool, cap, n).Some? <==> n <= room
  {
    if n <= room {
      RoomAdmits(order, pool, cap, n, ids, room);
    } else if Admitted(order, pool, cap, n).Some? {
      OneMoreAdmission(order, pool, cap, n, ids, room);
    }
  }

  /**
   Exact admission: m idle healthy workers admit exactly m * cap requests, and then selection
   answers at capacity; on the way every load x satisfies m * (x - 1) < n < m * (x + 1), that is,
   each worker carries n / m rounded down or up.
   */
  lemma {:induction false} IdleWorkersFillEvenly(order: seq<string>, pool: Pool, cap: nat, n: nat)
    requires Registered(order, pool.nodes)
    requires var ids := HealthyIds(order, pool.nodes); ids != [] && Idle(ids, LoadsOf(ids, pool.nodes))
    ensures
      var ids := HealthyIds(order, pool.nodes);
      && (Admitted(order, pool, cap, n).Some? <==> n <= cap * |ids|)
      && (n <= cap * |ids| ==>
            var after := Admitted(order, pool, cap, n).value;
            && (Select(order, after, cap, {}) == AtCapacity <==> n == cap * |ids|)
            && forall k :: 0 <= k < |ids| ==>
                 |ids| * (Load(after.nodes, ids[k]) - 1) < n < |ids| * (Load(after.nodes, ids[k]) + 1))
  {
    var ids := HealthyIds(order, pool.nodes);
    IdleAdmission(order, pool, cap, n, ids, cap * |ids|);
    if n <= cap * |ids| {
      NextIdleSelection(order, pool, cap, n, ids, cap * |ids|);
      IdleShares(order, pool, cap, n, ids);
    }
  }

  lemma IdleShares(order: seq<string>, pool: Pool, cap: nat, n: nat, ids: seq<string>)
    requires Registered(order, pool.nodes)
    requires ids == HealthyIds(order, pool.nodes) && ids != [] && Idle(ids, LoadsOf(ids, pool.nodes))
    requires Admitted(order, pool, cap, n).Some?
    ensures
      var after := Admitted(order, pool, cap, n).value;
      forall k :: 0 <= k < |ids| ==>
        |ids| * (Load(after.nodes, ids[k]) - 1) < n < |ids| * (Load(after.nodes, ids[k]) + 1)
  {
    var a, after := LoadsOf(ids, pool.nodes), Admitted(order, pool, cap, n).value;
    AdmissionLevels(order, pool, cap, n, ids, a);
    forall k | 0 <= k < |ids|
      ensures |ids| * (Load(after.nodes, ids[k]) - 1) < n < |ids| * (Load(after.nodes, ids[k]) + 1)
    {
      LevelledFromIdle(ids, a, LoadsOf(ids, after.nodes), n, cap, k);
    }
  }
}
