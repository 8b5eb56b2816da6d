/**
 Tie rotation: while every selection is released before the next one, equally loaded workers take
 turns in worker-id order.
 */
module Rotation {
  import opened Arithmetic
  import opened Lists
  import opened Sorting
  import opened WorkerHealth
  import opened Scheduling

  datatype Round = Round(picked: seq<string>, pool: Pool)

  /** n selections, each released before the next; none if one of them fails. */
  function Turns(order: seq<string>, pool: Pool, cap: int, n: nat): Option<Round> {
    if n == 0 then Some(Round([], pool))
    else
      match Turns(order, pool, cap, n - 1)
      case None => None
      case Some(Round(picked, p)) =>
        match Select(order, p, cap, {})
        case Selected(w, p') => Some(Round(picked + [w], p'.(nodes := Release(p'.nodes, w))))
        case _ => None
  }

  /** Some worker is healthy, and all healthy workers carry the same load, below the cap. */
  ghost predicate Even(order: seq<string>, nodes: map<string, Node>, load: nat, cap: int) {
    && load < cap
    && (exists id :: id in order && id in nodes && nodes[id].health.state == Healthy)
    && (forall id :: id in order && id in nodes && nodes[id].health.state == Healthy ==> nodes[id].outstanding == load)
  }

  /** The healthy workers in worker-id order. */
  function Ring(order: seq<string>, nodes: map<string, Node>): seq<string> {
    Sort(LexLeq, HealthyIds(order, nodes))
  }

  /** The healthy workers and no others, ascending by the first difference of their ids. */
  ghost predicate IsRing(order: seq<string>, nodes: map<string, Node>, ring: seq<string>) {
    && Ranked(ring)
    && forall id :: multiset(ring)[id] == if id in nodes && nodes[id].health.state == Healthy then multiset(order)[id] else 0
  }

  lemma RingIsIt(order: seq<string>, nodes: map<string, Node>)
    ensures IsRing(order, nodes, Ring(order, nodes))
  {
    FilterCounts(id => IsHealthy(nodes, id), order);
    SortRanks(HealthyIds(order, nodes));
  }

  lemma {:induction false} FilterAll<T(!new)>(p: T -> bool, xs: seq<T>)
    requires forall x :: x in xs ==> p(x)
    ensures Filter(p, xs) == xs
  {
    if xs != [] {
      assert xs[0] in xs;
      forall x | x in xs[1..]
        ensures p(x)
      {
        assert x in xs;
      }
      FilterAll(p, xs[1..]);
    }
  }

  lemma EvenCandidates(order: seq<string>, nodes: map<string, Node>, cap: int, load: nat)
    requires Even(order, nodes, load, cap)
    ensures
      var eligible := Eligible(order, nodes, cap, {});
      eligible != [] && Candidates(nodes, eligible) == Ring(order, nodes)
  {
    var healthy := HealthyIds(order, nodes);
    SelectableMembers(order, nodes, cap, {});
    FilterAll(HasRoom(nodes, cap, {}), healthy);
    LeastLoadIsLeast(nodes, healthy);
    var k :| 0 <= k < |healthy| && Load(nodes, healthy[k]) == LeastLoad(nodes, healthy);
    assert healthy[k] in healthy;
    FilterAll(Carries(nodes, LeastLoad(nodes, healthy)), healthy);
  }

  lemma ReleaseUndoesReserve(nodes: map<string, Node>, w: string)
    requires w in nodes && nodes[w].outstanding >= 0
    ensures Release(Reserve(nodes, w), w) == nodes
  {
    assert Release(Reserve(nodes, w), w) == nodes[w := nodes[w]];
  }

  /** One turn: the cursor picks from the ring, and only the cursor moves. */
  ghost predicate Turned(ring: seq<string>, pool: Pool, sel: Selection) {
    && |ring| > 0 && sel.Selected?
    && sel.worker == ring[pool.cursor % |ring|]
    && sel.pool.cursor == (pool.cursor + 1) % |ring|
    && Release(sel.pool.nodes, sel.worker) == pool.nodes
  }

  lemma EvenWorkerUndone(order: seq<string>, pool: Pool, cap: int, load: nat)
    requires Even(order, pool.nodes, load, cap) && Select(order, pool, cap, {}).Selected?
    ensures
      var sel := Select(order, pool, cap, {});
      Release(sel.pool.nodes, sel.worker) == pool.nodes
  {
    SelectionMeaning(order, pool, cap, {});
    ReleaseUndoesReserve(pool.nodes, Select(order, pool, cap, {}).worker);
  }

  lemma EvenSelection(order: seq<string>, pool: Pool, cap: int, load: nat)
    requires Even(order, pool.nodes, load, cap)
    ensures Turned(Ring(order, pool.nodes), pool, Select(order, pool, cap, {}))
  {
    EvenCandidates(order, pool.nodes, cap, load);
    SelectedIfAvailable(order, pool, cap, {});
    EligibleIsAvailable(order, pool.nodes, cap, {});
    assert Eligible(order, pool.nodes, cap, {})[0] in Eligible(order, pool.nodes, cap, {});
    PickedFromRing(order, pool, cap, {});
    EvenWorkerUndone(order, pool, cap, load);
  }

  /** One turn on evenly loaded workers: the cursor picks from the whole ring and only the cursor moves. */
  lemma {:induction false} EvenTurn(order: seq<string>, pool: Pool, cap: int, load: nat)
    requires Even(order, pool.nodes, load, cap)
    ensures
      var ring := Ring(order, pool.nodes);
      var sel := Select(order, pool, cap, {});
      && IsRing(order, pool.nodes, ring)
      && |ring| > 0 && sel.Selected?
      && sel.worker == ring[pool.cursor % |ring|]
      && sel.pool.cursor == (pool.cursor + 1) % |ring|
      && Release(sel.pool.nodes, sel.worker) == pool.nodes
  {
    RingIsIt(order, pool.nodes);
    EvenSelection(order, pool, cap, load);
  }

  /** The ring, read from position s on. */
  function From(ring: seq<string>, s: nat): seq<string>
    requires s < |ring|
  {
    ring[s..] + ring[..s]
  }

  /** The ring position n places after s. */
  function Ahead(s: nat, n: nat, m: nat): nat
    requires s < m && n <= m
  {
    if s + n < m then s + n else s + n - m
  }

  /** The first n turns picked the ring from s on and moved the cursor n places; the nodes are as before. */
  ghost predicate Followed(ring: seq<string>, pool: Pool, n: nat, t: Option<Round>) {
    && n <= |ring| && |ring| > 0 && t.Some?
    && var s := pool.cursor % |ring|;
       && t.value.picked == From(ring, s)[..n]
       && t.value.pool.nodes == pool.nodes
       && t.value.pool.cursor % |ring| == Ahead(s, n, |ring|)
  }

  lemma OneTurnFurther(ring: seq<string>, pool: Pool, n: nat, r: Round, cursor: nat, next: Option<Round>)
    requires 0 < n <= |ring| && Followed(ring, pool, n - 1, Some(r))
    requires cursor == (r.pool.cursor + 1) % |ring|
    requires next == Some(Round(r.picked + [ring[r.pool.cursor % |ring|]], Pool(r.pool.nodes, cursor)))
    ensures Followed(ring, pool, n, next)
  {
    var m := |ring|;
    var s := pool.cursor % m;
    NextRemainder(r.pool.cursor, m);
    RemainderIsUnique(cursor, m, 0, cursor);
    assert From(ring, s)[n - 1] == ring[Ahead(s, n - 1, m)];
    assert From(ring, s)[..n] == From(ring, s)[..n - 1] + [From(ring, s)[n - 1]];
  }

  lemma NextTurn(order: seq<string>, pool: Pool, cap: int, n: nat, ring: seq<string>, r: Round, cursor: nat)
    requires n > 0 && Turns(order, pool, cap, n - 1) == Some(r)
    requires Turned(ring, r.pool, Select(order, r.pool, cap, {})) && cursor == (r.pool.cursor + 1) % |ring|
    ensures Turns(order, pool, cap, n)
         == Some(Round(r.picked + [ring[r.pool.cursor % |ring|]], Pool(r.pool.nodes, cursor)))
  {}

  lemma {:induction false} TurnsFollowRing(order: seq<string>, pool: Pool, cap: int, load: nat, n: nat, ring: seq<string>)
    requires Even(order, pool.nodes, load, cap)
    requires ring == Ring(order, pool.nodes) && n <= |ring|
    ensures Followed(ring, pool, n, Turns(order, pool, cap, n))
  {
    if n == 0 {
      EvenSelection(order, pool, cap, load);
    } else {
      TurnsFollowRing(order, pool, cap, load, n - 1, ring);
      var r := Turns(order, pool, cap, n - 1).value;
      var cursor := (r.pool.cursor + 1) % |ring|;
      EvenSelection(order, r.pool, cap, load);
      NextTurn(order, pool, cap, n, ring, r, cursor);
      OneTurnFurther(ring, pool, n, r, cursor, Turns(order, pool, cap, n));
    }
  }

  /**
   Fair rotation: whatever the cursor, as many turns as there are healthy workers visit each of them
   once, ascending in worker-id order from the cursor's place on and then from the start, and leave
   the cursor where it stood, so the next turns repeat it.
   */
  lemma TurnsVisitEveryWorker(order: seq<string>, pool: Pool, cap: int, load: nat)
    requires Even(order, pool.nodes, load, cap)
    ensures
      var ring := Ring(order, pool.nodes);
      var t := Turns(order, pool, cap, |ring|);
      && IsRing(order, pool.nodes, ring) && |ring| > 0 && t.Some?
      && var s := pool.cursor % |ring|;
         && t.value.picked == ring[s..] + ring[..s]
         && t.value.pool.nodes == pool.nodes
         && t.value.pool.cursor % |ring| == s
  {
    var ring := Ring(order, pool.nodes);
    EvenTurn(order, pool, cap, load);
    TurnsFollowRing(order, pool, cap, load, |ring|, ring);
    assert From(ring, pool.cursor % |ring|)[..|ring|] == From(ring, pool.cursor % |ring|);
  }
}
