/**
 How many batches a backlog costs: the coroutine drains an undisturbed backlog exactly as the
 next-fit rule says, and next-fit is never far from the best possible packing.
 */
module BatchPlan {
  import opened Arithmetic
  import opened Lists
  import opened BatchMachine
  import opened BatchConservation
  import opened BatchCapacity

  // ----- the next-fit rule -----

  /** The batches cut from a waiting list when no batch is open. */
  function Drain(cfg: Config, admitted: seq<Envelope>, waiting: seq<nat>): seq<seq<nat>>
    decreases |waiting|, 0
  {
    if waiting == [] then [] else Grow(cfg, admitted, [waiting[0]], waiting[1..])
  }

  /** The batches cut when `batch` is open: it takes the next envelope while both limits allow. */
  function Grow(cfg: Config, admitted: seq<Envelope>, batch: seq<nat>, waiting: seq<nat>): seq<seq<nat>>
    decreases |waiting|, 2
  {
    if |batch| < cfg.maxBatchRequests && Items(admitted, batch) < cfg.maxBatchItems && waiting != []
       && Items(admitted, batch) + SizeOf(admitted, waiting[0]) <= cfg.maxBatchItems
    then Grow(cfg, admitted, batch + [waiting[0]], waiting[1..])
    else Cut(cfg, admitted, batch, waiting)
  }

  function Cut(cfg: Config, admitted: seq<Envelope>, batch: seq<nat>, waiting: seq<nat>): seq<seq<nat>>
    decreases |waiting|, 1
  {
    (if batch == [] then [] else [batch]) + Drain(cfg, admitted, waiting)
  }

  // ----- the coroutine follows the rule -----

  /** The batches still to be submitted in this state if nothing disturbs the backlog. */
  function Ahead(cfg: Config, s: State): seq<seq<nat>> {
    match s.phase
    case Opening(first) => Grow(cfg, s.admitted, [first], Upcoming(s))
    case Collecting(batch, _, _) => Grow(cfg, s.admitted, batch, Upcoming(s))
    case Waiting(batch, _, _) => Grow(cfg, s.admitted, batch, Upcoming(s))
    case Starting(batch) => Cut(cfg, s.admitted, batch, Upcoming(s))
    case Preparing(todo, _, valid, _, _) => Cut(cfg, s.admitted, valid + todo, Upcoming(s))
    case _ => Drain(cfg, s.admitted, Upcoming(s))
  }

  /**
   A step that does not disturb the backlog: nothing is admitted, no shutdown begins, the timer
   does not fire while envelopes are queued, and whatever has not been submitted is still live
   whenever the coroutine moves.
   */
  ghost predicate Undisturbed(s: State, a: Action)
    requires WellFormed(s)
  {
    && !a.Enqueue? && !a.Close?
    && (a.Timeout? && s.phase.Waiting? ==> s.queue == [])
    && (a.Go? && s.phase.Collecting? && s.phase.timer <= s.now ==> s.queue == [])
    && (a.Go? ==> forall i :: i in Unsubmitted(s) ==> i < |s.futures| && Live(s, i))
  }

  ghost predicate UndisturbedRun(cfg: Config, s: State, actions: seq<Action>)
    requires WellFormed(s)
    decreases |actions|
  {
    actions != [] ==>
      var rest := actions[..|actions| - 1];
      UndisturbedRun(cfg, s, rest) && Undisturbed(Run(cfg, s, rest), actions[|actions| - 1])
  }

  lemma FetchingFollows(cfg: Config, s: State)
    requires WellFormed(s) && s.phase.Fetching? && !s.stopping && Undisturbed(s, Go)
    ensures
      var t := GoFetching(s);
      Ahead(cfg, t) == Ahead(cfg, s) && t.history.submitted == s.history.submitted
  {
    if Upcoming(s) != [] {
      var t := GoFetching(s);
      assert Upcoming(s)[0] in Unsubmitted(s);
      assert Upcoming(t) == Upcoming(s)[1..];
    }
  }

  lemma WaitingFollows(cfg: Config, s: State)
    requires WellFormed(s) && s.phase.Waiting? && Bounded(cfg, s) && Undisturbed(s, Go)
    ensures
      var t := GoWaiting(cfg, s);
      Ahead(cfg, t) == Ahead(cfg, s) && t.history.submitted == s.history.submitted
  {
    if s.queue != [] {
      var t := GoWaiting(cfg, s);
      assert s.queue[0] in Upcoming(s);
      assert s.queue[0] in Unsubmitted(s);
      assert s.queue == [s.queue[0]] + s.queue[1..];
    }
  }

  lemma HeadIsLive(s: State)
    requires WellFormed(s) && s.phase.Preparing? && s.phase.todo != [] && Undisturbed(s, Go)
    ensures Live(s, s.phase.todo[0])
  {
    var valid, todo, rest := s.phase.valid, s.phase.todo, Upcoming(s);
    assert (valid + todo + rest)[|valid|] == todo[0];
    assert todo[0] in Unsubmitted(s);
  }

  lemma SubmittingFollows(cfg: Config, s: State)
    requires WellFormed(s) && s.phase.Preparing? && s.phase.todo == []
    ensures
      var t := GoPreparing(s);
      t.history.submitted + Ahead(cfg, t) == s.history.submitted + Ahead(cfg, s)
  {
    var valid, later := s.phase.valid, Drain(cfg, s.admitted, Upcoming(s));
    assert valid + [] == valid && [] + later == later;
    assert s.history.submitted + [valid] + later == s.history.submitted + ([valid] + later);
  }

  lemma PreparingFollows(cfg: Config, s: State)
    requires WellFormed(s) && s.phase.Preparing? && Undisturbed(s, Go)
    ensures
      var t := GoPreparing(s);
      t.history.submitted + Ahead(cfg, t) == s.history.submitted + Ahead(cfg, s)
  {
    var todo, valid := s.phase.todo, s.phase.valid;
    if todo == [] {
      SubmittingFollows(cfg, s);
    } else {
      HeadIsLive(s);
      assert valid + [todo[0]] + todo[1..] == valid + todo;
    }
  }

  lemma GoFollows(cfg: Config, s: State)
    requires WellFormed(s) && Bounded(cfg, s) && !s.stopping && Undisturbed(s, Go)
    ensures
      var t := GoStep(cfg, s);
      t.history.submitted + Ahead(cfg, t) == s.history.submitted + Ahead(cfg, s)
  {
    match s.phase
    case Fetching => FetchingFollows(cfg, s);
    case Waiting(_, _, _) => WaitingFollows(cfg, s);
    case Preparing(_, _, _, _, _) => PreparingFollows(cfg, s);
    case Collecting(_, _, _) => CollectingFollows(cfg, s);
    case _ => OthersFollow(cfg, s);
  }

  lemma CollectingFollows(cfg: Config, s: State)
    requires WellFormed(s) && Bounded(cfg, s) && s.phase.Collecting? && Undisturbed(s, Go)
    ensures
      var t := GoCollecting(cfg, s);
      Ahead(cfg, t) == Ahead(cfg, s) && t.history.submitted == s.history.submitted
  {
    assert s.phase.total == Items(s.admitted, s.phase.batch);
  }

  lemma OthersFollow(cfg: Config, s: State)
    requires WellFormed(s) && Undisturbed(s, Go)
    requires !s.phase.Fetching? && !s.phase.Collecting? && !s.phase.Waiting? && !s.phase.Preparing?
    ensures
      var t := GoStep(cfg, s);
      Ahead(cfg, t) == Ahead(cfg, s) && t.history.submitted == s.history.submitted
  {
    if s.phase.Starting? { assert [] + s.phase.batch == s.phase.batch; }
  }

  lemma StepFollows(cfg: Config, s: State, a: Action)
    requires WellFormed(s) && Bounded(cfg, s) && !s.stopping && Undisturbed(s, a)
    ensures
      var t := Step(cfg, s, a);
      !t.stopping && t.history.submitted + Ahead(cfg, t) == s.history.submitted + Ahead(cfg, s)
  {
    if a.Go? {
      GoFollows(cfg, s);
    } else {
      OtherActionsFollow(cfg, s, a);
    }
  }

  lemma OtherActionsFollow(cfg: Config, s: State, a: Action)
    requires WellFormed(s) && SlotFree(s) && !s.stopping && Undisturbed(s, a) && !a.Go?
    ensures
      var t := Step(cfg, s, a);
      !t.stopping && Ahead(cfg, t) == Ahead(cfg, s) && t.history.submitted == s.history.submitted
  {}

  /** What has been submitted, followed by the next-fit plan for the rest, never changes. */
  lemma {:induction false} RunFollows(cfg: Config, s: State, actions: seq<Action>)
    requires WellFormed(s) && Bounded(cfg, s) && !s.stopping && UndisturbedRun(cfg, s, actions)
    ensures
      var t := Run(cfg, s, actions);
      !t.stopping && t.history.submitted + Ahead(cfg, t) == s.history.submitted + Ahead(cfg, s)
    decreases |actions|
  {
    if actions != [] {
      var rest := actions[..|actions| - 1];
      RunFollows(cfg, s, rest);
      RunBounded(cfg, s, rest);
      StepFollows(cfg, Run(cfg, s, rest), actions[|actions| - 1]);
    }
  }

  // ----- the price of the rule -----

  /** Batches that reached the request limit. */
  function Full(cfg: Config, plan: seq<seq<nat>>): nat {
    if plan == [] then 0
    else (if |plan[0]| >= cfg.maxBatchRequests then 1 else 0) + Full(cfg, plan[1..])
  }

  /** The envelopes with inputs beyond the item limit cut off: what an oversized request costs a batch. */
  function Trimmed(cfg: Config, admitted: seq<Envelope>): (trimmed: seq<Envelope>)
    requires cfg.maxBatchItems >= 0
    ensures |trimmed| == |admitted|
  {
    Map((e: Envelope) => e.(inputs := if |e.inputs| > cfg.maxBatchItems then e.inputs[..cfg.maxBatchItems] else e.inputs),
        admitted)
  }

  lemma TrimmedSize(cfg: Config, admitted: seq<Envelope>, i: nat)
    requires cfg.maxBatchItems >= 0
    ensures SizeOf(Trimmed(cfg, admitted), i)
         == if SizeOf(admitted, i) > cfg.maxBatchItems then cfg.maxBatchItems else SizeOf(admitted, i)
  {}

  lemma {:induction false} TrimmedItems(cfg: Config, admitted: seq<Envelope>, xs: seq<nat>)
    requires cfg.maxBatchItems >= 0
    ensures Items(Trimmed(cfg, admitted), xs) <= Items(admitted, xs)
    ensures Items(Trimmed(cfg, admitted), xs) >= cfg.maxBatchItems || Items(Trimmed(cfg, admitted), xs) == Items(admitted, xs)
  {
    if xs != [] {
      TrimmedItems(cfg, admitted, xs[..|xs| - 1]);
      TrimmedSize(cfg, admitted, xs[|xs| - 1]);
    }
  }

  /** A batch below the request limit and its successor together reach the item limit. */
  ghost predicate Tight(cfg: Config, admitted: seq<Envelope>, plan: seq<seq<nat>>) {
    forall k :: 0 <= k < |plan| - 1 ==>
      |plan[k]| >= cfg.maxBatchRequests
      || Items(admitted, plan[k]) + Items(admitted, plan[k + 1]) >= cfg.maxBatchItems
  }

  /** What a plan cut by the rule satisfies; `opening` is the start of its first batch. */
  ghost predicate WellCut(cfg: Config, admitted: seq<Envelope>, opening: seq<nat>, waiting: seq<nat>, plan: seq<seq<nat>>)
    requires cfg.maxBatchItems >= 0
  {
    && Flatten(plan) == opening + waiting
    && Tight(cfg, Trimmed(cfg, admitted), plan)
    && (opening != [] ==> plan != [] && opening <= plan[0])
  }

  lemma ItemsAtLeast(admitted: seq<Envelope>, opening: seq<nat>, batch: seq<nat>)
    requires opening <= batch
    ensures Items(admitted, opening) <= Items(admitted, batch)
  {
    assert batch == opening + batch[|opening|..];
    ItemsConcat(admitted, opening, batch[|opening|..]);
  }

  lemma {:induction false} DrainWellCut(cfg: Config, admitted: seq<Envelope>, waiting: seq<nat>)
    requires cfg.maxBatchItems >= 0
    ensures WellCut(cfg, admitted, [], waiting, Drain(cfg, admitted, waiting))
    ensures waiting != [] ==> WellCut(cfg, admitted, [waiting[0]], waiting[1..], Drain(cfg, admitted, waiting))
    decreases |waiting|, 0
  {
    if waiting != [] {
      GrowWellCut(cfg, admitted, [waiting[0]], waiting[1..]);
      assert [waiting[0]] + waiting[1..] == waiting;
    }
  }

  lemma {:induction false} GrowWellCut(cfg: Config, admitted: seq<Envelope>, batch: seq<nat>, waiting: seq<nat>)
    requires batch != [] && cfg.maxBatchItems >= 0
    ensures WellCut(cfg, admitted, batch, waiting, Grow(cfg, admitted, batch, waiting))
    decreases |waiting|, 1
  {
    if |batch| < cfg.maxBatchRequests && Items(admitted, batch) < cfg.maxBatchItems && waiting != []
       && Items(admitted, batch) + SizeOf(admitted, waiting[0]) <= cfg.maxBatchItems {
      GrowWellCut(cfg, admitted, batch + [waiting[0]], waiting[1..]);
      assert batch + [waiting[0]] + waiting[1..] == batch + waiting;
    } else {
      DrainWellCut(cfg, admitted, waiting);
      CutWellCut(cfg, admitted, batch, waiting);
    }
  }

  /** A batch that does not take the next envelope for its items reaches the limit together with that envelope. */
  lemma ClosedByItems(cfg: Config, admitted: seq<Envelope>, batch: seq<nat>, waiting: seq<nat>, next: seq<nat>)
    requires cfg.maxBatchItems >= 0 && waiting != [] && [waiting[0]] <= next
    requires Items(admitted, batch) >= cfg.maxBatchItems
          || Items(admitted, batch) + SizeOf(admitted, waiting[0]) > cfg.maxBatchItems
    ensures Items(Trimmed(cfg, admitted), batch) + Items(Trimmed(cfg, admitted), next) >= cfg.maxBatchItems
  {
    var trimmed := Trimmed(cfg, admitted);
    TrimmedItems(cfg, admitted, batch);
    TrimmedSize(cfg, admitted, waiting[0]);
    ItemsAtLeast(trimmed, [waiting[0]], next);
    assert Items(trimmed, [waiting[0]]) == Items(trimmed, [waiting[0]][..0]) + SizeOf(trimmed, waiting[0]);
  }

  lemma TightAfter(cfg: Config, admitted: seq<Envelope>, batch: seq<nat>, later: seq<seq<nat>>)
    requires Tight(cfg, admitted, later)
    requires later != [] ==>
               |batch| >= cfg.maxBatchRequests || Items(admitted, batch) + Items(admitted, later[0]) >= cfg.maxBatchItems
    ensures Tight(cfg, admitted, [batch] + later)
  {
    var plan := [batch] + later;
    forall k | 0 <= k < |plan| - 1
      ensures |plan[k]| >= cfg.maxBatchRequests
           || Items(admitted, plan[k]) + Items(admitted, plan[k + 1]) >= cfg.maxBatchItems
    {
      if k > 0 { assert plan[k] == later[k - 1] && plan[k + 1] == later[k]; }
    }
  }

  lemma CutWellCut(cfg: Config, admitted: seq<Envelope>, batch: seq<nat>, waiting: seq<nat>)
    requires batch != [] && cfg.maxBatchItems >= 0
    requires !(|batch| < cfg.maxBatchRequests && Items(admitted, batch) < cfg.maxBatchItems && waiting != []
               && Items(admitted, batch) + SizeOf(admitted, waiting[0]) <= cfg.maxBatchItems)
    requires WellCut(cfg, admitted, [], waiting, Drain(cfg, admitted, waiting))
    requires waiting != [] ==> WellCut(cfg, admitted, [waiting[0]], waiting[1..], Drain(cfg, admitted, waiting))
    ensures WellCut(cfg, admitted, batch, waiting, Cut(cfg, admitted, batch, waiting))
  {
    var later := Drain(cfg, admitted, waiting);
    FlattenHead([batch] + later);
    assert ([batch] + later)[1..] == later;
    assert [] + waiting == waiting;
    if waiting != [] && |batch| < cfg.maxBatchRequests {
      ClosedByItems(cfg, admitted, batch, waiting, later[0]);
    }
    TightAfter(cfg, Trimmed(cfg, admitted), batch, later);
  }

  lemma {:induction false} TightPlanIsShort(cfg: Config, admitted: seq<Envelope>, plan: seq<seq<nat>>)
    requires plan != [] && cfg.maxBatchItems >= 0
    requires Tight(cfg, admitted, plan)
    ensures cfg.maxBatchItems * (|plan| - 1 - Full(cfg, plan)) <= 2 * Items(admitted, Flatten(plan)) - Items(admitted, plan[0])
  {
    var rest := plan[1..];
    FlattenHead(plan);
    ItemsConcat(admitted, plan[0], Flatten(rest));
    if rest != [] {
      assert Tight(cfg, admitted, rest) by {
        assert forall k :: 0 <= k < |rest| ==> rest[k] == plan[k + 1];
      }
      TightPlanIsShort(cfg, admitted, rest);
      var m, loose := cfg.maxBatchItems, |rest| - 1 - Full(cfg, rest);
      if |plan[0]| < cfg.maxBatchRequests {
        assert Items(admitted, plan[0]) + Items(admitted, plan[1]) >= m;
        Distribute(m, loose, 1);
      }
      FlattenHead(rest);
      ItemsConcat(admitted, rest[0], Flatten(rest[1..]));
    }
  }

  lemma {:induction false} FullBatchesAreFew(cfg: Config, plan: seq<seq<nat>>)
    ensures cfg.maxBatchRequests * Full(cfg, plan) <= |Flatten(plan)|
  {
    if plan != [] {
      FlattenHead(plan);
      FullBatchesAreFew(cfg, plan[1..]);
      OneMore(cfg.maxBatchRequests, Full(cfg, plan[1..]));
    }
  }

  // ----- main results -----

  /**
   Draining an undisturbed backlog: the batches submitted from one fetch to a later fetch with
   nothing waiting are the next-fit batches of that backlog, in order.
   */
  lemma {:induction false} BacklogDrainsByNextFit(cfg: Config, now: real, before: seq<Action>, during: seq<Action>)
    requires
      var s := Run(cfg, Initial(now), before);
      var t := Run(cfg, s, during);
      && s.phase.Fetching? && !s.stopping && UndisturbedRun(cfg, s, during)
      && t.phase.Fetching? && Upcoming(t) == []
    ensures
      var s := Run(cfg, Initial(now), before);
      var t := Run(cfg, s, during);
      t.history.submitted == s.history.submitted + Drain(cfg, s.admitted, Upcoming(s))
  {
    var s := Run(cfg, Initial(now), before);
    RunBounded(cfg, Initial(now), before);
    RunFollows(cfg, s, during);
    var t := Run(cfg, s, during);
    assert t.history.submitted + [] == t.history.submitted;
  }

  /**
   The price of next-fit: of B batches for n requests with S inputs in all, A reach the request
   limit R with A * R <= n, and M * (B - 1 - A) <= 2 * S for the item limit M, even when an
   oversized request counts for M only.
   */
  lemma NextFitBound(cfg: Config, admitted: seq<Envelope>, waiting: seq<nat>)
    requires cfg.maxBatchItems >= 0
    ensures
      var plan := Drain(cfg, admitted, waiting);
      && Flatten(plan) == waiting
      && cfg.maxBatchRequests * Full(cfg, plan) <= |waiting|
      && cfg.maxBatchItems * (|plan| - 1 - Full(cfg, plan)) <= 2 * Items(Trimmed(cfg, admitted), waiting)
      && Items(Trimmed(cfg, admitted), waiting) <= Items(admitted, waiting)
  {
    var plan := Drain(cfg, admitted, waiting);
    DrainWellCut(cfg, admitted, waiting);
    assert [] + waiting == waiting;
    FullBatchesAreFew(cfg, plan);
    TrimmedItems(cfg, admitted, waiting);
    if plan != [] { TightPlanIsShort(cfg, Trimmed(cfg, admitted), plan); }
  }

  /** What a batch may hold at best: both limits are respected, except by a lone oversized request. */
  predicate Allowed(cfg: Config, admitted: seq<Envelope>, batch: seq<nat>) {
    |batch| <= cfg.maxBatchRequests && (Items(admitted, batch) <= cfg.maxBatchItems || |batch| == 1)
  }

  /** A way of serving the backlog, in any order, by allowed batches. */
  ghost predicate Packing(cfg: Config, admitted: seq<Envelope>, waiting: seq<nat>, plan: seq<seq<nat>>) {
    && multiset(Flatten(plan)) == multiset(waiting)
    && forall k :: 0 <= k < |plan| ==> Allowed(cfg, admitted, plan[k])
  }

  lemma AllowedFits(cfg: Config, admitted: seq<Envelope>, batch: seq<nat>)
    requires cfg.maxBatchItems >= 0 && Allowed(cfg, admitted, batch)
    ensures Items(Trimmed(cfg, admitted), batch) <= cfg.maxBatchItems
  {
    TrimmedItems(cfg, admitted, batch);
    if |batch| == 1 {
      TrimmedSize(cfg, admitted, batch[0]);
      assert Items(Trimmed(cfg, admitted), batch[..0]) == 0;
    }
  }

  lemma {:induction false} PackingFits(cfg: Config, admitted: seq<Envelope>, plan: seq<seq<nat>>)
    requires cfg.maxBatchItems >= 0
    requires forall k :: 0 <= k < |plan| ==> Allowed(cfg, admitted, plan[k])
    ensures |Flatten(plan)| <= cfg.maxBatchRequests * |plan|
    ensures Items(Trimmed(cfg, admitted), Flatten(plan)) <= cfg.maxBatchItems * |plan|
  {
    if plan != [] {
      var n := |plan| - 1;
      PackingFits(cfg, admitted, plan[..n]);
      AllowedFits(cfg, admitted, plan[n]);
      ItemsConcat(Trimmed(cfg, admitted), Flatten(plan[..n]), plan[n]);
      OneMore(cfg.maxBatchRequests, n);
      OneMore(cfg.maxBatchItems, n);
    }
  }

  lemma {:induction false} ItemsOfPermutation(admitted: seq<Envelope>, xs: seq<nat>, ys: seq<nat>)
    requires multiset(xs) == multiset(ys)
    ensures Items(admitted, xs) == Items(admitted, ys) && |xs| == |ys|
  {
    assert |multiset(xs)| == |xs| && |multiset(ys)| == |ys|;
    if xs != [] {
      var fewer, x := xs[..|xs| - 1], xs[|xs| - 1];
      assert xs == fewer + [x];
      assert x in multiset(ys);
      var j :| 0 <= j < |ys| && ys[j] == x;
      WithoutOne(fewer, x, ys[..j], ys[j + 1..], ys);
      ItemsOfPermutation(admitted, fewer, ys[..j] + ys[j + 1..]);
      ItemsAround(admitted, ys[..j], x, ys[j + 1..]);
    }
  }

  lemma ItemsAround(admitted: seq<Envelope>, left: seq<nat>, x: nat, right: seq<nat>)
    ensures Items(admitted, left + [x] + right) == Items(admitted, left + right) + SizeOf(admitted, x)
  {
    ItemsConcat(admitted, left, right);
    ItemsConcat(admitted, left + [x], right);
    assert (left + [x])[..|left|] == left;
  }

  /** The arithmetic of the comparison: `batches` batches of which `full` are full, against `best` batches. */
  lemma FewBatches(r: int, m: int, requests: int, items: int, batches: int, full: int, best: int)
    requires r > 0 && m > 0
    requires r * full <= requests <= r * best
    requires m * (batches - 1 - full) <= 2 * items && items <= m * best
    ensures batches <= 3 * best + 1
  {
    CancelFactor(r, full, best);
    Distribute(m, best, best);
    CancelFactor(m, batches - 1 - full, best + best);
  }

  /** Next-fit never needs more than three times the batches of any packing, plus one, whatever is in the backlog. */
  lemma NextFitIsNearOptimal(cfg: Config, admitted: seq<Envelope>, waiting: seq<nat>, packing: seq<seq<nat>>)
    requires cfg.maxBatchRequests > 0 && cfg.maxBatchItems > 0
    requires Packing(cfg, admitted, waiting, packing)
    ensures |Drain(cfg, admitted, waiting)| <= 3 * |packing| + 1
  {
    var plan, trimmed := Drain(cfg, admitted, waiting), Trimmed(cfg, admitted);
    NextFitBound(cfg, admitted, waiting);
    PackingFits(cfg, admitted, packing);
    ItemsOfPermutation(trimmed, Flatten(packing), waiting);
    FewBatches(cfg.maxBatchRequests, cfg.maxBatchItems, |waiting|, Items(trimmed, waiting), |plan|, Full(cfg, plan), |packing|);
  }
}
