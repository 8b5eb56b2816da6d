/**
 Two limits that the batcher keeps only under a condition: the item limit and the reported queue
 depth. Each comes with its exact condition and with runs of the program that break it otherwise.
 */
module BatchLimits {
  import opened Arithmetic
  import opened Lists
  import opened BatchMachine
  import opened BatchCapacity
  import opened BatchRuns

  // ----- the item limit -----

  lemma {:induction false} ItemsCoverEach(admitted: seq<Envelope>, batch: seq<nat>, k: nat)
    requires k < |batch|
    ensures Items(admitted, batch) >= SizeOf(admitted, batch[k])
  {
    if k < |batch| - 1 { ItemsCoverEach(admitted, batch[..|batch| - 1], k); }
  }

  ghost predicate HoldsOversized(cfg: Config, admitted: seq<Envelope>, batch: seq<nat>) {
    exists k :: 0 <= k < |batch| && SizeOf(admitted, batch[k]) > cfg.maxBatchItems
  }

  /** A submitted batch exceeds the item limit exactly when it holds a request that does; such a request is alone in it. */
  lemma ItemLimitBrokenExactlyByOversized(cfg: Config, now: real, actions: seq<Action>, k: nat)
    requires cfg.maxBatchItems >= 0
    requires k < |Run(cfg, Initial(now), actions).history.submitted|
    ensures
      var s := Run(cfg, Initial(now), actions);
      var batch := s.history.submitted[k];
      && (Items(s.admitted, batch) > cfg.maxBatchItems <==> HoldsOversized(cfg, s.admitted, batch))
      && (HoldsOversized(cfg, s.admitted, batch) ==> |batch| == 1)
  {
    var s := Run(cfg, Initial(now), actions);
    RunBounded(cfg, Initial(now), actions);
    OversizedIsAlone(cfg, s.admitted, s.history.submitted[k]);
  }

  lemma OversizedIsAlone(cfg: Config, admitted: seq<Envelope>, batch: seq<nat>)
    requires cfg.maxBatchItems >= 0 && Fits(cfg, admitted, batch)
    ensures Items(admitted, batch) > cfg.maxBatchItems <==> HoldsOversized(cfg, admitted, batch)
    ensures HoldsOversized(cfg, admitted, batch) ==> |batch| == 1
  {
    if HoldsOversized(cfg, admitted, batch) {
      var k :| 0 <= k < |batch| && SizeOf(admitted, batch[k]) > cfg.maxBatchItems;
      ItemsCoverEach(admitted, batch, k);
    }
    if |batch| == 1 {
      assert Items(admitted, batch) == Items(admitted, batch[..0]) + SizeOf(admitted, batch[0]);
    }
  }

  // ----- the queue depth -----

  /** Every request brings between 1 and `most` inputs. */
  predicate SizesWithin(actions: seq<Action>, most: int) {
    forall k :: 0 <= k < |actions| ==> SizeWithin(actions[k], most)
  }

  predicate SizeWithin(a: Action, most: int) {
    a.Enqueue? ==> 1 <= |a.inputs| <= most
  }

  /** A batch may stay open until a request does not fit. */
  predicate MayHold(cfg: Config, most: int) {
    && cfg.maxBatchRequests > 1 && cfg.maxBatchItems > 1 && most > 1
    && most * cfg.maxBatchRequests > cfg.maxBatchItems
    && cfg.maxBatchDelayMs > 0
  }

  predicate EnvelopesWithin(admitted: seq<Envelope>, most: int) {
    forall i :: 0 <= i < |admitted| ==> 1 <= |admitted[i].inputs| <= most
  }

  /** An open batch of `size` requests with `total` inputs. */
  predicate OpenWithin(cfg: Config, most: int, size: nat, total: nat, timer: real, now: real) {
    1 <= size <= total <= most * size && timer <= now + cfg.maxBatchDelayMs as real / 1000.0
  }

  predicate NeverHeld(cfg: Config, most: int, s: State) {
    && s.hold.None?
    && EnvelopesWithin(s.admitted, most)
    && match s.phase
       case Collecting(batch, total, timer) => OpenWithin(cfg, most, |batch|, total, timer, s.now)
       case Waiting(batch, total, timer) =>
         && OpenWithin(cfg, most, |batch|, total, timer, s.now)
         && |batch| < cfg.maxBatchRequests && total < cfg.maxBatchItems && cfg.maxBatchDelayMs > 0
       case _ => true
  }

  /** An open batch that a request does not fit into proves that the configuration may hold envelopes. */
  lemma OverflowMayHold(cfg: Config, most: int, size: nat, total: nat, more: nat)
    requires 1 <= size < cfg.maxBatchRequests && size <= total <= most * size
    requires more <= most && cfg.maxBatchDelayMs > 0
    requires total < cfg.maxBatchItems < total + more
    ensures MayHold(cfg, most)
  {
    OneMore(most, size);
    FactorGrows(most, size + 1, cfg.maxBatchRequests);
  }

  lemma PulledNeverHeld(cfg: Config, most: int, s: State)
    requires WellFormed(s) && NeverHeld(cfg, most, s) && !MayHold(cfg, most) && s.phase.Waiting? && s.queue != []
    ensures NeverHeld(cfg, most, GoWaiting(cfg, s))
  {
    var Waiting(batch, total, timer) := s.phase;
    var more := |s.admitted[s.queue[0]].inputs|;
    WaitingMoves(cfg, s);
    OneMore(most, |batch|);
    if total + more > cfg.maxBatchItems {
      OverflowMayHold(cfg, most, |batch|, total, more);
    }
  }

  lemma GoNeverHeld(cfg: Config, most: int, s: State)
    requires WellFormed(s) && NeverHeld(cfg, most, s) && !MayHold(cfg, most)
    ensures NeverHeld(cfg, most, GoStep(cfg, s))
  {
    if s.phase.Waiting? {
      if s.queue != [] { PulledNeverHeld(cfg, most, s); }
    } else if s.phase.Opening? {
      assert most * 1 == most;
    }
  }

  lemma StepNeverHeld(cfg: Config, most: int, s: State, a: Action)
    requires WellFormed(s) && NeverHeld(cfg, most, s) && !MayHold(cfg, most) && SizeWithin(a, most)
    ensures NeverHeld(cfg, most, Step(cfg, s, a))
  {
    if a.Go? { GoNeverHeld(cfg, most, s); }
  }

  lemma {:induction false} RunNeverHeld(cfg: Config, most: int, now: real, actions: seq<Action>)
    requires !MayHold(cfg, most) && SizesWithin(actions, most)
    ensures NeverHeld(cfg, most, Run(cfg, Initial(now), actions))
    decreases |actions|
  {
    if actions != [] {
      var rest := actions[..|actions| - 1];
      RunNeverHeld(cfg, most, now, rest);
      StepNeverHeld(cfg, most, Run(cfg, Initial(now), rest), actions[|actions| - 1]);
    }
  }

  // ----- building runs of the program -----

  /** A run of the program from time 0 with requests within the limit, and the state it leads to. */
  ghost predicate Leads(cfg: Config, most: int, actions: seq<Action>, s: State) {
    && ProgramRun(cfg, Initial(0.0), actions)
    && SizesWithin(actions, most)
    && s == Run(cfg, Initial(0.0), actions)
  }

  /** Requests come only while the coroutine is idle; otherwise it moves. */
  lemma LeadsOn(cfg: Config, most: int, actions: seq<Action>, s: State, a: Action)
    requires Leads(cfg, most, actions, s) && SizeWithin(a, most)
    requires a.Go? || (a.Enqueue? && Idle(s))
    ensures Leads(cfg, most, actions + [a], Step(cfg, s, a))
  {
    ProgramRunOneMore(cfg, Initial(0.0), actions, a);
    RunOneMore(cfg, Initial(0.0), actions, a);
  }

  function Request(size: nat): Action {
    Enqueue("request", seq(size, _ => "x"), 0.0)
  }

  /** At time 0 with every request live. */
  predicate Fresh(s: State) {
    && s.now == 0.0 && !s.stopping && |s.futures| == |s.admitted|
    && forall i :: 0 <= i < |s.futures| ==> Live(s, i)
  }

  lemma FreshRequest(cfg: Config, s: State, size: nat)
    requires WellFormed(s) && Fresh(s)
    ensures Fresh(Step(cfg, s, Request(size)))
  {
    var t := Step(cfg, s, Request(size));
    forall i | 0 <= i < |t.futures|
      ensures Live(t, i)
    {
      if i < |s.futures| { assert Live(s, i); }
    }
  }

  lemma FreshTurn(cfg: Config, s: State)
    requires WellFormed(s) && Fresh(s) && !s.phase.Failing? && !s.phase.Scattering?
    ensures Fresh(GoStep(cfg, s))
  {
    var t := GoStep(cfg, s);
    assert t.futures == s.futures && t.admitted == s.admitted && t.now == s.now && !t.stopping by {
      assert s.phase.Fetching? && Upcoming(s) != [] ==> Live(s, Upcoming(s)[0]);
      assert s.phase.Waiting? && s.queue != [] ==> Live(s, s.queue[0]);
      assert s.phase.Preparing? && s.phase.todo != [] ==> Live(s, s.phase.todo[0]);
    }
    forall i | 0 <= i < |t.futures|
      ensures Live(t, i)
    {
      assert Live(s, i);
    }
  }

  /** The coroutine waits at time 0 with an open batch and nothing queued. */
  predicate WaitsWith(s: State, size: nat, total: nat) {
    && Fresh(s) && s.queue == [] && s.hold.None?
    && s.phase.Waiting? && |s.phase.batch| == size && s.phase.total == total && s.phase.timer > 0.0
  }

  /** A batch at the executor, a held envelope and n queued ones. */
  predicate HeldAnd(s: State, n: nat) {
    s.phase.Executing? && s.hold.Some? && |s.queue| == n && !s.stopping
  }

  lemma RequestQueued(cfg: Config, s: State, size: nat)
    requires WellFormed(s) && Fresh(s) && s.queue == []
    ensures
      var t, i := Step(cfg, s, Request(size)), |s.admitted|;
      && t == s.(admitted := t.admitted, futures := t.futures, queue := [i])
      && Fresh(t) && i < |t.admitted| && Live(t, i) && |t.admitted[i].inputs| == size
  {
    FreshRequest(cfg, s, size);
  }

  /** A request that fits joins the batch, and the coroutine waits on while the limits allow. */
  lemma RequestJoins(cfg: Config, s: State, size: nat, total: nat, more: nat)
    requires WellFormed(s) && WaitsWith(s, size, total)
    requires size + 1 < cfg.maxBatchRequests && total + more < cfg.maxBatchItems
    ensures WaitsWith(Step(cfg, Step(cfg, Step(cfg, s, Request(more)), Go), Go), size + 1, total + more)
  {
    RequestQueued(cfg, s, more);
    var t := Step(cfg, s, Request(more));
    var batch, timer := s.phase.batch, s.phase.timer;
    FreshTurn(cfg, t);
    FreshTurn(cfg, GoStep(cfg, t));
    assert GoWaiting(cfg, t) == t.(queue := [], phase := Collecting(batch + [t.queue[0]], total + more, timer));
  }

  /** A batch about to be prepared, with one envelope held and nothing queued. */
  predicate HeldBehind(s: State) {
    Fresh(s) && s.hold.Some? && s.queue == [] && InHand(s.phase) != []
  }

  lemma RequestIsHeld(cfg: Config, s: State, size: nat, total: nat, more: nat)
    requires WellFormed(s) && WaitsWith(s, size, total) && size > 0
    requires total + more > cfg.maxBatchItems
    ensures var t := Step(cfg, Step(cfg, s, Request(more)), Go); HeldBehind(t) && t.phase.Starting?
  {
    RequestQueued(cfg, s, more);
    FreshTurn(cfg, Step(cfg, s, Request(more)));
  }

  lemma PreparingTurn(cfg: Config, s: State)
    requires WellFormed(s) && HeldBehind(s) && s.phase.Preparing?
    ensures
      var t := Step(cfg, s, Go);
      if s.phase.todo == [] then HeldAnd(t, 0)
      else HeldBehind(t) && t.phase.Preparing? && t.phase.todo == s.phase.todo[1..]
  {
    FreshTurn(cfg, s);
    assert s.phase.todo == [] ==> s.phase.valid + s.phase.todo == s.phase.valid;
  }

  /** Preparing a live batch hands it to the executor. */
  lemma {:induction false} PreparingReachesExecutor(cfg: Config, most: int, before: seq<Action>, s: State)
    returns (actions: seq<Action>, t: State)
    requires Leads(cfg, most, before, s) && HeldBehind(s) && s.phase.Preparing?
    ensures Leads(cfg, most, actions, t) && HeldAnd(t, 0)
    decreases |s.phase.todo|
  {
    PreparingTurn(cfg, s);
    LeadsOn(cfg, most, before, s, Go);
    actions, t := before + [Go], Step(cfg, s, Go);
    if s.phase.todo != [] {
      actions, t := PreparingReachesExecutor(cfg, most, actions, t);
    }
  }

  lemma StartingReachesExecutor(cfg: Config, most: int, before: seq<Action>, s: State)
    returns (actions: seq<Action>, t: State)
    requires Leads(cfg, most, before, s) && HeldBehind(s) && s.phase.Starting?
    ensures Leads(cfg, most, actions, t) && HeldAnd(t, 0)
  {
    FreshTurn(cfg, s);
    assert [] + s.phase.batch == s.phase.batch;
    LeadsOn(cfg, most, before, s, Go);
    actions, t := PreparingReachesExecutor(cfg, most, before + [Go], Step(cfg, s, Go));
  }

  lemma FirstRequestWaits(cfg: Config, size: nat)
    requires cfg.maxBatchRequests > 1 && size < cfg.maxBatchItems && cfg.maxBatchDelayMs > 0
    ensures
      var taken := Step(cfg, Step(cfg, Initial(0.0), Request(size)), Go);
      WaitsWith(Step(cfg, Step(cfg, taken, Go), Go), 1, size)
  {
    FirstRequestTaken(cfg, size);
    var taken := Step(cfg, Step(cfg, Initial(0.0), Request(size)), Go);
    FreshTurn(cfg, taken);
    FreshTurn(cfg, GoStep(cfg, taken));
  }

  lemma FirstRequestTaken(cfg: Config, size: nat)
    ensures
      var s := Step(cfg, Step(cfg, Initial(0.0), Request(size)), Go);
      && Fresh(s) && s.phase == Opening(0) && s.queue == [] && s.hold.None? && s.history.submitted == []
      && |s.admitted| == 1 && |s.admitted[0].inputs| == size
  {
    RequestQueued(cfg, Initial(0.0), size);
    FreshTurn(cfg, Step(cfg, Initial(0.0), Request(size)));
  }

  /** The largest request that leaves the batch open. */
  function Fitting(cfg: Config, most: int, total: nat): int {
    if most < cfg.maxBatchItems - 1 - total then most else cfg.maxBatchItems - 1 - total
  }

  lemma FirstWaits(cfg: Config, most: int) returns (actions: seq<Action>, s: State)
    requires MayHold(cfg, most)
    ensures Leads(cfg, most, actions, s) && WaitsWith(s, 1, Fitting(cfg, most, 0))
  {
    var size := Fitting(cfg, most, 0);
    actions, s := [], Initial(0.0);
    FirstRequestWaits(cfg, size);
    LeadsOn(cfg, most, actions, s, Request(size));
    actions, s := actions + [Request(size)], Step(cfg, s, Request(size));
    LeadsOn(cfg, most, actions, s, Go);
    actions, s := actions + [Go], Step(cfg, s, Go);
    LeadsOn(cfg, most, actions, s, Go);
    actions, s := actions + [Go], Step(cfg, s, Go);
    LeadsOn(cfg, most, actions, s, Go);
    actions, s := actions + [Go], Step(cfg, s, Go);
  }

  /** Filling an open batch with the largest requests that fit leads to one that does not. */
  lemma {:induction false} FillingHolds(cfg: Config, most: int, before: seq<Action>, s: State, size: nat, total: nat)
    returns (actions: seq<Action>, t: State)
    requires MayHold(cfg, most)
    requires Leads(cfg, most, before, s) && WaitsWith(s, size, total)
    requires 0 < size < cfg.maxBatchRequests && total < cfg.maxBatchItems
    requires total == most * size || total == cfg.maxBatchItems - 1
    ensures Leads(cfg, most, actions, t) && HeldAnd(t, 0)
    decreases cfg.maxBatchItems - total
  {
    OneMore(most, size);
    if total + most > cfg.maxBatchItems {
      RequestIsHeld(cfg, s, size, total, most);
      LeadsOn(cfg, most, before, s, Request(most));
      LeadsOn(cfg, most, before + [Request(most)], Step(cfg, s, Request(most)), Go);
      actions, t := StartingReachesExecutor(cfg, most, before + [Request(most)] + [Go],
                                            Step(cfg, Step(cfg, s, Request(most)), Go));
    } else {
      var more := Fitting(cfg, most, total);
      FactorGrows(most, cfg.maxBatchRequests, size + 1);
      RequestJoins(cfg, s, size, total, more);
      var u := Step(cfg, s, Request(more));
      LeadsOn(cfg, most, before, s, Request(more));
      LeadsOn(cfg, most, before + [Request(more)], u, Go);
      LeadsOn(cfg, most, before + [Request(more)] + [Go], Step(cfg, u, Go), Go);
      actions, t := FillingHolds(cfg, most, before + [Request(more)] + [Go] + [Go], Step(cfg, Step(cfg, u, Go), Go),
                                 size + 1, total + more);
    }
  }

  /** While the batch is at the executor the queue behind the held envelope fills up. */
  lemma {:induction false} QueueFills(cfg: Config, most: int, n: nat) returns (actions: seq<Action>, s: State)
    requires MayHold(cfg, most) && n <= cfg.queueCapacity
    ensures Leads(cfg, most, actions, s) && HeldAnd(s, n)
  {
    if n == 0 {
      var before, u := FirstWaits(cfg, most);
      actions, s := FillingHolds(cfg, most, before, u, 1, Fitting(cfg, most, 0));
    } else {
      var fewer, u := QueueFills(cfg, most, n - 1);
      LeadsOn(cfg, most, fewer, u, Request(1));
      actions, s := fewer + [Request(1)], Step(cfg, u, Request(1));
    }
  }

  /** The reported depth stays within the capacity in every run of the program with requests of 1 to `most` inputs. */
  ghost predicate DepthWithinCapacity(cfg: Config, most: int) {
    forall now, actions ::
      ProgramRun(cfg, Initial(now), actions) && SizesWithin(actions, most) ==>
        QueueDepth(Run(cfg, Initial(now), actions)) <= cfg.queueCapacity
  }

  /** The depth stays within the capacity exactly under configurations that never need to hold an envelope. */
  lemma DepthWithinCapacityExactly(cfg: Config, most: int)
    requires cfg.queueCapacity > 0
    ensures DepthWithinCapacity(cfg, most) <==> !MayHold(cfg, most)
  {
    if MayHold(cfg, most) {
      var actions, s := QueueFills(cfg, most, cfg.queueCapacity);
      assert QueueDepth(s) == cfg.queueCapacity + 1;
    } else {
      forall now, actions | SizesWithin(actions, most)
        ensures QueueDepth(Run(cfg, Initial(now), actions)) <= cfg.queueCapacity
      {
        RunNeverHeld(cfg, most, now, actions);
        RunBounded(cfg, Initial(now), actions);
      }
    }
  }

  // ----- the item limit over runs -----

  ghost predicate WithinItemLimit(cfg: Config, s: State) {
    forall k :: 0 <= k < |s.history.submitted| ==> Items(s.admitted, s.history.submitted[k]) <= cfg.maxBatchItems
  }

  /** Every batch of every run of the program with requests of 1 to `most` inputs stays within the item limit. */
  ghost predicate ItemLimitKept(cfg: Config, most: int) {
    forall now, actions ::
      ProgramRun(cfg, Initial(now), actions) && SizesWithin(actions, most) ==>
        WithinItemLimit(cfg, Run(cfg, Initial(now), actions))
  }

  lemma {:induction false} RunKeepsSizes(cfg: Config, most: int, now: real, actions: seq<Action>)
    requires SizesWithin(actions, most)
    ensures EnvelopesWithin(Run(cfg, Initial(now), actions).admitted, most)
    decreases |actions|
  {
    if actions != [] {
      RunKeepsSizes(cfg, most, now, actions[..|actions| - 1]);
      StepKeepsSizes(cfg, most, Run(cfg, Initial(now), actions[..|actions| - 1]), actions[|actions| - 1]);
    }
  }

  lemma StepKeepsSizes(cfg: Config, most: int, s: State, a: Action)
    requires WellFormed(s) && EnvelopesWithin(s.admitted, most) && SizeWithin(a, most)
    ensures EnvelopesWithin(Step(cfg, s, a).admitted, most)
  {}

  lemma SmallRequestsStayWithin(cfg: Config, most: int, admitted: seq<Envelope>, batch: seq<nat>)
    requires 0 <= cfg.maxBatchItems && most <= cfg.maxBatchItems
    requires EnvelopesWithin(admitted, most) && Fits(cfg, admitted, batch)
    ensures Items(admitted, batch) <= cfg.maxBatchItems
  {
    OversizedIsAlone(cfg, admitted, batch);
  }

  lemma OversizedStarts(cfg: Config, size: nat)
    requires size > cfg.maxBatchItems
    ensures
      var taken := Step(cfg, Step(cfg, Initial(0.0), Request(size)), Go);
      var s := Step(cfg, Step(cfg, taken, Go), Go);
      && Fresh(s) && s.phase == Starting([0]) && s.history.submitted == []
      && |s.admitted| == 1 && |s.admitted[0].inputs| == size
  {
    FirstRequestTaken(cfg, size);
    var taken := Step(cfg, Step(cfg, Initial(0.0), Request(size)), Go);
    FreshTurn(cfg, taken);
    FreshTurn(cfg, GoStep(cfg, taken));
  }

  lemma LoneStartIsPrepared(cfg: Config, s: State)
    requires WellFormed(s) && Fresh(s) && s.phase == Starting([0]) && s.history.submitted == []
    ensures
      var t := Step(cfg, s, Go);
      && Fresh(t) && t.phase == Preparing([0], s.now, [], [], [])
      && t.admitted == s.admitted && t.history.submitted == [] && 0 < |t.admitted|
  {
    assert s.phase.batch[0] == 0;
    FreshTurn(cfg, s);
  }

  lemma LoneRequestIsTakenOver(cfg: Config, s: State, start: real)
    requires WellFormed(s) && Fresh(s) && s.phase == Preparing([0], start, [], [], []) && 0 < |s.admitted|
    ensures
      var t := Step(cfg, s, Go);
      && t.phase.Preparing? && t.phase.todo == [] && t.phase.valid == [0]
      && t.admitted == s.admitted && t.history.submitted == s.history.submitted
  {
    assert Live(s, 0);
  }

  lemma LoneStartIsSubmitted(cfg: Config, s: State)
    requires WellFormed(s) && Fresh(s) && s.phase == Starting([0]) && s.history.submitted == []
    ensures
      var t := Step(cfg, Step(cfg, Step(cfg, s, Go), Go), Go);
      t.history.submitted == [[0]] && t.admitted == s.admitted
  {
    LoneStartIsPrepared(cfg, s);
    LoneRequestIsTakenOver(cfg, Step(cfg, s, Go), s.now);
  }

  /** A run of the program that submits a request above the item limit. */
  lemma OversizedIsSubmitted(cfg: Config, most: int) returns (actions: seq<Action>, s: State)
    requires 0 <= cfg.maxBatchItems < most
    ensures Leads(cfg, most, actions, s) && !WithinItemLimit(cfg, s)
  {
    var size := cfg.maxBatchItems + 1;
    OversizedStarts(cfg, size);
    actions, s := [], Initial(0.0);
    LeadsOn(cfg, most, actions, s, Request(size));
    actions, s := actions + [Request(size)], Step(cfg, s, Request(size));
    LeadsOn(cfg, most, actions, s, Go);
    actions, s := actions + [Go], Step(cfg, s, Go);
    LeadsOn(cfg, most, actions, s, Go);
    actions, s := actions + [Go], Step(cfg, s, Go);
    LeadsOn(cfg, most, actions, s, Go);
    actions, s := actions + [Go], Step(cfg, s, Go);
    LoneStartIsSubmitted(cfg, s);
    LeadsOn(cfg, most, actions, s, Go);
    actions, s := actions + [Go], Step(cfg, s, Go);
    LeadsOn(cfg, most, actions, s, Go);
    actions, s := actions + [Go], Step(cfg, s, Go);
    LeadsOn(cfg, most, actions, s, Go);
    actions, s := actions + [Go], Step(cfg, s, Go);
    assert s.history.submitted[0] == [0] && [0][..0] == [];
    assert Items(s.admitted, [0]) == Items(s.admitted, []) + SizeOf(s.admitted, 0);
  }

  /** All batches stay within the item limit, in every run of the program, exactly if no request may exceed it. */
  lemma ItemLimitKeptExactly(cfg: Config, most: int)
    requires cfg.maxBatchItems >= 0
    ensures ItemLimitKept(cfg, most) <==> most <= cfg.maxBatchItems
  {
    if most > cfg.maxBatchItems {
      var actions, s := OversizedIsSubmitted(cfg, most);
    } else {
      forall now, actions | SizesWithin(actions, most)
        ensures WithinItemLimit(cfg, Run(cfg, Initial(now), actions))
      {
        var s := Run(cfg, Initial(now), actions);
        RunKeepsSizes(cfg, most, now, actions);
        RunBounded(cfg, Initial(now), actions);
        forall k | 0 <= k < |s.history.submitted|
          ensures Items(s.admitted, s.history.submitted[k]) <= cfg.maxBatchItems
        {
          SmallRequestsStayWithin(cfg, most, s.admitted, s.history.submitted[k]);
        }
      }
    }
  }
}
