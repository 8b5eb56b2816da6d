/**
 Least-outstanding routing: which worker a request is sent to, and what that achieves.
 */
module Scheduling {
  import opened Lists
  import opened Sorting
  import opened WorkerHealth

  datatype Node = Node(health: Health, outstanding: int)

  /** The registry's nodes and the scheduler's tie-breaking cursor. */
  datatype Pool = Pool(nodes: map<string, Node>, cursor: nat)

  datatype Selection = Selected(worker: string, pool: Pool) | NoHealthyWorker | AtCapacity

  /** `order` lists the registered workers, each once. */
  predicate Registered(order: seq<string>, nodes: map<string, Node>) {
    && (forall i :: 0 <= i < |order| ==> order[i] in nodes)
    && Distinct(order)
  }

  predicate Distinct<T(==)>(xs: seq<T>) {
    forall i, j :: 0 <= i < j < |xs| ==> xs[i] != xs[j]
  }

  // ----- worker-id order -----

  predicate LexLeq(a: string, b: string) {
    a == [] || (b != [] && (a[0] < b[0] || (a[0] == b[0] && LexLeq(a[1..], b[1..]))))
  }

  lemma LexTotal(a: string, b: string)
    ensures LexLeq(a, b) || LexLeq(b, a)
  {}

  lemma LexTransitive(a: string, b: string, c: string)
    requires LexLeq(a, b) && LexLeq(b, c)
    ensures LexLeq(a, c)
  {}

  lemma LexIsOrder()
    ensures TotalOrder(LexLeq)
  {
    forall a, b
      ensures LexLeq(a, b) || LexLeq(b, a)
    {
      LexTotal(a, b);
    }
    forall a, b, c | LexLeq(a, b) && LexLeq(b, c)
      ensures LexLeq(a, c)
    {
      LexTransitive(a, b, c);
    }
  }

  /** The ids agree before place k, where the first one ends or has the lower character. */
  predicate FirstDifference(a: string, b: string, k: nat) {
    && k <= |a| && k <= |b| && a[..k] == b[..k]
    && (k == |a| || (k < |b| && a[k] < b[k]))
  }

  /** The order of strings in the program: by their first difference. */
  ghost predicate Precedes(a: string, b: string) {
    exists k: nat :: FirstDifference(a, b, k)
  }

  lemma SameStart(a: string, b: string, k: nat)
    requires 0 < k && FirstDifference(a, b, k)
    ensures a != [] && b != [] && a[0] == b[0]
  {
    assert a[..k][0] == b[..k][0];
  }

  lemma {:induction false} LexByFirstDifference(a: string, b: string)
    ensures LexLeq(a, b) <==> Precedes(a, b)
  {
    if a == [] || b == [] || a[0] != b[0] {
      assert LexLeq(a, b) ==> FirstDifference(a, b, 0);
      forall k: nat | FirstDifference(a, b, k)
        ensures k == 0
      {
        if k > 0 { SameStart(a, b, k); }
      }
    } else {
      LexByFirstDifference(a[1..], b[1..]);
      forall k: nat | FirstDifference(a[1..], b[1..], k)
        ensures FirstDifference(a, b, k + 1)
      {
        assert a[..k + 1] == [a[0]] + a[1..][..k] && b[..k + 1] == [b[0]] + b[1..][..k];
      }
      forall k: nat | FirstDifference(a, b, k)
        ensures k > 0 && FirstDifference(a[1..], b[1..], k - 1)
      {
        assert a[1..][..k - 1] == a[..k][1..] && b[1..][..k - 1] == b[..k][1..];
      }
    }
  }

  ghost predicate Ranked(ids: seq<string>) {
    forall i, j :: 0 <= i < j < |ids| ==> Precedes(ids[i], ids[j])
  }

  lemma SortRanks(ids: seq<string>)
    ensures Ranked(Sort(LexLeq, ids)) && multiset(Sort(LexLeq, ids)) == multiset(ids)
  {
    LexIsOrder();
    SortAscending(LexLeq, ids);
    SortPermutes(LexLeq, ids);
    var sorted := Sort(LexLeq, ids);
    forall i, j | 0 <= i < j < |sorted|
      ensures Precedes(sorted[i], sorted[j])
    {
      LexByFirstDifference(sorted[i], sorted[j]);
    }
  }

  // ----- selection and release -----

  predicate IsHealthy(nodes: map<string, Node>, id: string) {
    id in nodes && nodes[id].health.state == Healthy
  }

  function Load(nodes: map<string, Node>, id: string): int {
    if id in nodes then nodes[id].outstanding else 0
  }

  function HealthyIds(order: seq<string>, nodes: map<string, Node>): seq<string> {
    Filter(id => IsHealthy(nodes, id), order)
  }

  function HasRoom(nodes: map<string, Node>, cap: int, exclude: set<string>): string -> bool {
    id => id !in exclude && Load(nodes, id) < cap
  }

  function Carries(nodes: map<string, Node>, load: int): string -> bool {
    id => Load(nodes, id) == load
  }

  function Eligible(order: seq<string>, nodes: map<string, Node>, cap: int, exclude: set<string>): seq<string> {
    Filter(HasRoom(nodes, cap, exclude), HealthyIds(order, nodes))
  }

  lemma SelectableMembers(order: seq<string>, nodes: map<string, Node>, cap: int, exclude: set<string>)
    ensures forall id :: id in HealthyIds(order, nodes) <==> id in order && IsHealthy(nodes, id)
    ensures forall id :: id in Eligible(order, nodes, cap, exclude) <==>
              id in order && IsHealthy(nodes, id) && id !in exclude && Load(nodes, id) < cap
  {
    FilterMembers(id => IsHealthy(nodes, id), order);
    FilterMembers(HasRoom(nodes, cap, exclude), HealthyIds(order, nodes));
  }

  function LeastLoad(nodes: map<string, Node>, ids: seq<string>): int
    requires ids != []
  {
    if |ids| == 1 then Load(nodes, ids[0])
    else
      var rest := LeastLoad(nodes, ids[1..]);
      if Load(nodes, ids[0]) <= rest then Load(nodes, ids[0]) else rest
  }

  lemma {:induction false} LeastLoadIsLeast(nodes: map<string, Node>, ids: seq<string>)
    requires ids != []
    ensures exists k :: 0 <= k < |ids| && Load(nodes, ids[k]) == LeastLoad(nodes, ids)
    ensures forall k :: 0 <= k < |ids| ==> LeastLoad(nodes, ids) <= Load(nodes, ids[k])
  {
    if |ids| == 1 {
      assert Load(nodes, ids[0]) == LeastLoad(nodes, ids);
    } else {
      LeastLoadIsLeast(nodes, ids[1..]);
      var k :| 0 <= k < |ids[1..]| && Load(nodes, ids[1..][k]) == LeastLoad(nodes, ids[1..]);
      assert ids[1..][k] == ids[k + 1];
      assert LeastLoad(nodes, ids) == Load(nodes, ids[0]) || LeastLoad(nodes, ids) == Load(nodes, ids[k + 1]);
      assert forall k :: 1 <= k < |ids| ==> ids[k] == ids[1..][k - 1];
    }
  }

  /** The eligible workers with the least load, in worker-id order. */
  function Candidates(nodes: map<string, Node>, eligible: seq<string>): (ids: seq<string>)
    requires eligible != []
    ensures ids != []
  {
    CandidateMembers(nodes, eligible);
    Sort(LexLeq, Filter(Carries(nodes, LeastLoad(nodes, eligible)), eligible))
  }

  lemma CandidateMembers(nodes: map<string, Node>, eligible: seq<string>)
    requires eligible != []
    ensures
      var ids := Sort(LexLeq, Filter(Carries(nodes, LeastLoad(nodes, eligible)), eligible));
      && ids != []
      && forall id :: id in ids <==> id in eligible && Load(nodes, id) == LeastLoad(nodes, eligible)
  {
    var tied := Filter(Carries(nodes, LeastLoad(nodes, eligible)), eligible);
    FilterMembers(Carries(nodes, LeastLoad(nodes, eligible)), eligible);
    LeastLoadIsLeast(nodes, eligible);
    var k :| 0 <= k < |eligible| && Load(nodes, eligible[k]) == LeastLoad(nodes, eligible);
    assert eligible[k] in tied;
    SortPermutes(LexLeq, tied);
    assert tied[0] in multiset(tied);
    assert forall id :: id in Sort(LexLeq, tied) <==> id in multiset(Sort(LexLeq, tied));
    assert forall id :: id in tied <==> id in multiset(tied);
  }

  function Reserve(nodes: map<string, Node>, id: string): map<string, Node> {
    if id in nodes then nodes[id := nodes[id].(outstanding := nodes[id].outstanding + 1)] else nodes
  }

  function Release(nodes: map<string, Node>, id: string): map<string, Node> {
    if id in nodes && nodes[id].outstanding > 0
    then nodes[id := nodes[id].(outstanding := nodes[id].outstanding - 1)] else nodes
  }

  function Select(order: seq<string>, pool: Pool, cap: int, exclude: set<string>): Selection {
    if HealthyIds(order, pool.nodes) == [] then NoHealthyWorker
    else
      var eligible := Eligible(order, pool.nodes, cap, exclude);
      if eligible == [] then AtCapacity
      else
        var candidates := Candidates(pool.nodes, eligible);
        var worker := candidates[pool.cursor % |candidates|];
        Selected(worker, Pool(Reserve(pool.nodes, worker), (pool.cursor + 1) % |candidates|))
  }

  /** Selecting a worker reserves on it and changes nothing else about any node. */
  ghost predicate ReservesOn(before: map<string, Node>, after: map<string, Node>, w: string) {
    && w in before
    && after == before[w := before[w].(outstanding := before[w].outstanding + 1)]
  }

  /**
   Selection, by outcome: a least-loaded worker among the healthy, not excluded ones with room;
   no worker exactly when none is healthy; at capacity exactly when some are and all of them are
   excluded or full.
   */
  lemma SelectionMeaning(order: seq<string>, pool: Pool, cap: int, exclude: set<string>)
    ensures
      var nodes := pool.nodes;
      match Select(order, pool, cap, exclude)
      case NoHealthyWorker => forall id :: id in order ==> !IsHealthy(nodes, id)
      case AtCapacity =>
        && (exists id :: id in order && IsHealthy(nodes, id))
        && (forall id :: id in order && IsHealthy(nodes, id) ==> id in exclude || Load(nodes, id) >= cap)
      case Selected(w, pool') =>
        && w in order && IsHealthy(nodes, w) && w !in exclude && Load(nodes, w) < cap
        && (forall id :: id in order && IsHealthy(nodes, id) && id !in exclude ==> Load(nodes, w) <= Load(nodes, id))
        && ReservesOn(nodes, pool'.nodes, w)
  {
    var healthy := HealthyIds(order, pool.nodes);
    SelectableMembers(order, pool.nodes, cap, exclude);
    if healthy != [] {
      assert healthy[0] in healthy;
      var eligible := Eligible(order, pool.nodes, cap, exclude);
      if eligible != [] {
        var candidates := Candidates(pool.nodes, eligible);
        CandidateMembers(pool.nodes, eligible);
        LeastLoadIsLeast(pool.nodes, eligible);
        assert candidates[pool.cursor % |candidates|] in candidates;
      }
    }
  }

  // ----- which of several least-loaded workers -----

  /** The worker is healthy, not excluded, and below the cap. */
  predicate Available(order: seq<string>, nodes: map<string, Node>, cap: int, exclude: set<string>, id: string) {
    && id in order && id in nodes && id !in exclude
    && nodes[id].health.state == Healthy && nodes[id].outstanding < cap
  }

  /** No available worker carries less. */
  ghost predicate Tied(order: seq<string>, nodes: map<string, Node>, cap: int, exclude: set<string>, id: string) {
    && Available(order, nodes, cap, exclude, id)
    && forall other :: Available(order, nodes, cap, exclude, other) ==> nodes[id].outstanding <= nodes[other].outstanding
  }

  /** The tied workers and no others, in worker-id order. */
  ghost predicate IsTieRing(order: seq<string>, nodes: map<string, Node>, cap: int, exclude: set<string>, ring: seq<string>) {
    && Ranked(ring)
    && forall id :: multiset(ring)[id] == if Tied(order, nodes, cap, exclude, id) then multiset(order)[id] else 0
  }

  function TieRing(order: seq<string>, nodes: map<string, Node>, cap: int, exclude: set<string>): seq<string> {
    var eligible := Eligible(order, nodes, cap, exclude);
    if eligible == [] then [] else Candidates(nodes, eligible)
  }

  lemma EligibleIsAvailable(order: seq<string>, nodes: map<string, Node>, cap: int, exclude: set<string>)
    ensures
      var eligible := Eligible(order, nodes, cap, exclude);
      forall id ::
        && (id in eligible <==> Available(order, nodes, cap, exclude, id))
        && multiset(eligible)[id] == if Available(order, nodes, cap, exclude, id) then multiset(order)[id] else 0
  {
    SelectableMembers(order, nodes, cap, exclude);
    FilterCounts(id => IsHealthy(nodes, id), order);
    FilterCounts(HasRoom(nodes, cap, exclude), HealthyIds(order, nodes));
  }

  lemma TieRingIsIt(order: seq<string>, nodes: map<string, Node>, cap: int, exclude: set<string>)
    ensures IsTieRing(order, nodes, cap, exclude, TieRing(order, nodes, cap, exclude))
  {
    var eligible := Eligible(order, nodes, cap, exclude);
    EligibleIsAvailable(order, nodes, cap, exclude);
    if eligible != [] {
      var least := LeastLoad(nodes, eligible);
      LeastLoadIsLeast(nodes, eligible);
      FilterCounts(Carries(nodes, least), eligible);
      SortRanks(Filter(Carries(nodes, least), eligible));
      forall id
        ensures Tied(order, nodes, cap, exclude, id) <==> id in eligible && Load(nodes, id) == least
      {
        TiedCarriesLeast(order, nodes, cap, exclude, eligible, id);
      }
    }
  }

  lemma TiedCarriesLeast(order: seq<string>, nodes: map<string, Node>, cap: int, exclude: set<string>,
                         eligible: seq<string>, id: string)
    requires eligible != [] && forall x :: x in eligible <==> Available(order, nodes, cap, exclude, x)
    ensures Tied(order, nodes, cap, exclude, id) <==> id in eligible && Load(nodes, id) == LeastLoad(nodes, eligible)
  {
    LeastLoadIsLeast(nodes, eligible);
    var k :| 0 <= k < |eligible| && Load(nodes, eligible[k]) == LeastLoad(nodes, eligible);
    assert eligible[k] in eligible;
  }

  /**
   Selection, whatever the loads: the cursor picks from the available workers that carry the least,
   in worker-id order, one reservation is made there, and the cursor moves one place on among them;
   no worker is selected exactly when none is available.
   */
  lemma SelectionRotates(order: seq<string>, pool: Pool, cap: int, exclude: set<string>)
    ensures
      var ring, sel := TieRing(order, pool.nodes, cap, exclude), Select(order, pool, cap, exclude);
      && IsTieRing(order, pool.nodes, cap, exclude, ring)
      && (sel.Selected? <==> exists id :: Available(order, pool.nodes, cap, exclude, id))
      && (sel.Selected? ==>
            && |ring| > 0 && sel.worker == ring[pool.cursor % |ring|]
            && sel.pool.cursor == (pool.cursor + 1) % |ring|
            && ReservesOn(pool.nodes, sel.pool.nodes, sel.worker))
  {
    TieRingIsIt(order, pool.nodes, cap, exclude);
    PickedFromRing(order, pool, cap, exclude);
    SelectedIfAvailable(order, pool, cap, exclude);
    SelectedReserves(order, pool, cap, exclude);
  }

  lemma PickedFromRing(order: seq<string>, pool: Pool, cap: int, exclude: set<string>)
    ensures
      var ring, sel := TieRing(order, pool.nodes, cap, exclude), Select(order, pool, cap, exclude);
      sel.Selected? ==>
        |ring| > 0 && sel.worker == ring[pool.cursor % |ring|] && sel.pool.cursor == (pool.cursor + 1) % |ring|
  {}

  lemma SelectedIfAvailable(order: seq<string>, pool: Pool, cap: int, exclude: set<string>)
    ensures Select(order, pool, cap, exclude).Selected? <==> exists id :: Available(order, pool.nodes, cap, exclude, id)
  {
    EligibleIsAvailable(order, pool.nodes, cap, exclude);
    var eligible := Eligible(order, pool.nodes, cap, exclude);
    if eligible != [] {
      assert eligible[0] in eligible;
      assert Available(order, pool.nodes, cap, exclude, eligible[0]);
    }
  }

  lemma SelectedReserves(order: seq<string>, pool: Pool, cap: int, exclude: set<string>)
    ensures
      var sel := Select(order, pool, cap, exclude);
      sel.Selected? ==> ReservesOn(pool.nodes, sel.pool.nodes, sel.worker)
  {
    SelectionMeaning(order, pool, cap, exclude);
  }
}
