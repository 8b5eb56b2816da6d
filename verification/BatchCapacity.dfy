/**
 Occupancy and progress of the batcher over whole runs.
 */
module BatchCapacity {
  import opened Lists
  import opened BatchMachine
  import opened BatchConservation

  /** A batch always takes its first envelope, even when a limit is below one. */
  function RequestLimit(cfg: Config): nat {
    if cfg.maxBatchRequests > 1 then cfg.maxBatchRequests else 1
  }

  function SizeOf(admitted: seq<Envelope>, i: nat): nat {
    if i < |admitted| then |admitted[i].inputs| else 0
  }

  /** Model inputs in the listed envelopes. */
  function Items(admitted: seq<Envelope>, xs: seq<nat>): nat {
    if xs == [] then 0 else Items(admitted, xs[..|xs| - 1]) + SizeOf(admitted, xs[|xs| - 1])
  }

  lemma {:induction false} ItemsConcat(admitted: seq<Envelope>, xs: seq<nat>, ys: seq<nat>)
    ensures Items(admitted, xs + ys) == Items(admitted, xs) + Items(admitted, ys)
  {
    if ys == [] {
      assert xs + ys == xs;
    } else {
      ItemsConcat(admitted, xs, ys[..|ys| - 1]);
      assert (xs + ys)[..|xs + ys| - 1] == xs + ys[..|ys| - 1];
    }
  }

  lemma {:induction false} ItemsExtend(admitted: seq<Envelope>, more: seq<Envelope>, xs: seq<nat>)
    requires Below(xs, |admitted|)
    ensures Items(admitted + more, xs) == Items(admitted, xs)
  {
    if xs != [] {
      ItemsExtend(admitted, more, xs[..|xs| - 1]);
    }
  }

  /** The limits on a batch; only a batch of one may exceed the item limit. */
  predicate Fits(cfg: Config, admitted: seq<Envelope>, batch: seq<nat>) {
    && Below(batch, |admitted|)
    && |batch| <= RequestLimit(cfg)
    && (|batch| >= 2 ==> Items(admitted, batch) <= cfg.maxBatchItems)
  }

  lemma FitsWithout(cfg: Config, admitted: seq<Envelope>, left: seq<nat>, i: nat, right: seq<nat>)
    requires Fits(cfg, admitted, left + [i] + right)
    ensures Fits(cfg, admitted, left + right)
  {
    var batch, fewer := left + [i] + right, left + right;
    forall k | 0 <= k < |fewer|
      ensures fewer[k] < |admitted|
    {
      assert fewer[k] == batch[if k < |left| then k else k + 1];
    }
    ItemsConcat(admitted, left, [i]);
    ItemsConcat(admitted, left + [i], right);
    ItemsConcat(admitted, left, right);
  }

  ghost predicate AllFit(cfg: Config, admitted: seq<Envelope>, batches: seq<seq<nat>>) {
    forall k :: 0 <= k < |batches| ==> Fits(cfg, admitted, batches[k])
  }

  /** The limits on what the coroutine holds, beside `held` envelopes in the slot. */
  ghost predicate HandBounded(cfg: Config, admitted: seq<Envelope>, p: Phase, held: nat) {
    && |InHand(p)| + held <= RequestLimit(cfg)
    && (p.Waiting? ==> |p.batch| < cfg.maxBatchRequests && p.total < cfg.maxBatchItems)
    && (p.Collecting? || p.Waiting? ==> p.total == Items(admitted, p.batch))
    && (!p.Failing? && !p.Scattering? ==> Fits(cfg, admitted, InHand(p)))
  }

  function Held(s: State): nat {
    if s.hold.Some? then 1 else 0
  }

  ghost predicate Bounded(cfg: Config, s: State)
    requires WellFormed(s)
  {
    && SlotFree(s)
    && (cfg.queueCapacity > 0 ==> |s.queue| <= cfg.queueCapacity)
    && HandBounded(cfg, s.admitted, s.phase, Held(s))
    && AllFit(cfg, s.admitted, s.history.submitted)
  }

  /** Neither the limits nor the batches already submitted notice later admissions. */
  lemma FitsLater(cfg: Config, admitted: seq<Envelope>, more: seq<Envelope>, batch: seq<nat>)
    requires Fits(cfg, admitted, batch)
    ensures Fits(cfg, admitted + more, batch)
  {
    ItemsExtend(admitted, more, batch);
  }

  lemma EnqueueBounded(cfg: Config, s: State, env: Envelope)
    requires WellFormed(s) && Bounded(cfg, s)
    ensures Bounded(cfg, EnqueueStep(cfg, s, env))
  {
    forall batch | Fits(cfg, s.admitted, batch)
      ensures Fits(cfg, s.admitted + [env], batch)
    {
      FitsLater(cfg, s.admitted, [env], batch);
    }
    if s.phase.Collecting? || s.phase.Waiting? {
      ItemsExtend(s.admitted, [env], s.phase.batch);
    }
  }

  lemma OpeningBounded(cfg: Config, s: State)
    requires WellFormed(s) && Bounded(cfg, s) && s.phase.Opening?
    ensures Bounded(cfg, GoOpening(cfg, s))
  {
    var first := s.phase.first;
    assert Items(s.admitted, [first]) == Items(s.admitted, []) + SizeOf(s.admitted, first);
  }

  lemma TakingOneMore(cfg: Config, admitted: seq<Envelope>, batch: seq<nat>, total: nat, timer: real, i: nat)
    requires HandBounded(cfg, admitted, Waiting(batch, total, timer), 0)
    requires i < |admitted| && total + SizeOf(admitted, i) <= cfg.maxBatchItems
    ensures HandBounded(cfg, admitted, Collecting(batch + [i], total + SizeOf(admitted, i), timer), 0)
  {
    assert (batch + [i])[..|batch|] == batch;
  }

  lemma StoppingToCollect(cfg: Config, admitted: seq<Envelope>, batch: seq<nat>, total: nat, timer: real)
    requires HandBounded(cfg, admitted, Waiting(batch, total, timer), 0)
    ensures HandBounded(cfg, admitted, Collecting(batch, total, timer), 0)
    ensures HandBounded(cfg, admitted, Starting(batch), 1)
  {}

  /** What one envelope pulled while collecting may lead to, as far as the limits are concerned. */
  lemma WaitingMoves(cfg: Config, s: State)
    requires WellFormed(s) && s.phase.Waiting? && s.queue != []
    ensures
      var t := GoWaiting(cfg, s);
      var Waiting(batch, total, timer) := s.phase;
      var i := s.queue[0];
      && t.queue == s.queue[1..] && t.admitted == s.admitted && t.history.submitted == s.history.submitted
      && (|| (t.hold == s.hold && t.phase == Collecting(batch, total, timer))
          || (t.hold == Some(i) && t.phase == Starting(batch))
          || (t.hold == s.hold && total + SizeOf(s.admitted, i) <= cfg.maxBatchItems
              && t.phase == Collecting(batch + [i], total + SizeOf(s.admitted, i), timer)))
  {}

  lemma PulledHand(cfg: Config, s: State)
    requires WellFormed(s) && s.phase.Waiting? && s.hold.None? && HandBounded(cfg, s.admitted, s.phase, 0)
    ensures var t := GoWaiting(cfg, s); HandBounded(cfg, t.admitted, t.phase, Held(t))
  {
    if s.queue != [] {
      var Waiting(batch, total, timer) := s.phase;
      WaitingMoves(cfg, s);
      StoppingToCollect(cfg, s.admitted, batch, total, timer);
      if total + SizeOf(s.admitted, s.queue[0]) <= cfg.maxBatchItems {
        TakingOneMore(cfg, s.admitted, batch, total, timer, s.queue[0]);
      }
    }
  }

  lemma WaitingBounded(cfg: Config, s: State)
    requires WellFormed(s) && Bounded(cfg, s) && s.phase.Waiting?
    ensures Bounded(cfg, GoWaiting(cfg, s))
  {
    PulledHand(cfg, s);
    if s.queue != [] { WaitingMoves(cfg, s); }
  }

  /** Only fetching and waiting touch the queue, the hold slot and what is counted about them. */
  lemma OtherPhasesFrame(cfg: Config, s: State)
    requires WellFormed(s) && !s.phase.Fetching? && !s.phase.Waiting?
    ensures
      var t := GoStep(cfg, s);
      && t.queue == s.queue && t.hold == s.hold && t.admitted == s.admitted
      && t.history.deferred == s.history.deferred && t.history.iterations == s.history.iterations
  {}

  /** A step that leaves queue and slot alone keeps the bounds when its phase and its submissions do. */
  lemma SameQueueBounded(cfg: Config, s: State, t: State)
    requires WellFormed(s) && Bounded(cfg, s) && WellFormed(t)
    requires t.queue == s.queue && t.hold == s.hold && t.admitted == s.admitted
    requires t.phase.Preparing? || t.phase.Executing? || t.phase.Fetching?
    requires |InHand(t.phase)| <= |InHand(s.phase)| && Fits(cfg, s.admitted, InHand(t.phase))
    requires forall batch :: batch in t.history.submitted ==> batch in s.history.submitted || batch == InHand(t.phase)
    ensures Bounded(cfg, t)
  {
    forall k | 0 <= k < |t.history.submitted|
      ensures Fits(cfg, t.admitted, t.history.submitted[k])
    {
      assert t.history.submitted[k] in t.history.submitted;
    }
  }

  /** Taking the next envelope over, or leaving it out, keeps the limits. */
  lemma FitsEitherWay(cfg: Config, admitted: seq<Envelope>, valid: seq<nat>, todo: seq<nat>)
    requires todo != [] && Fits(cfg, admitted, valid + todo)
    ensures Fits(cfg, admitted, valid + [todo[0]] + todo[1..]) && Fits(cfg, admitted, valid + todo[1..])
  {
    assert valid + todo == valid + [todo[0]] + todo[1..];
    FitsWithout(cfg, admitted, valid, todo[0], todo[1..]);
  }

  lemma PreparingHand(s: State)
    requires WellFormed(s) && s.phase.Preparing?
    ensures
      var kept, todo, valid := InHand(GoPreparing(s).phase), s.phase.todo, s.phase.valid;
      if todo == [] then kept == [] || kept == valid
      else kept == valid + [todo[0]] + todo[1..] || kept == valid + todo[1..]
  {}

  lemma PreparingFits(cfg: Config, s: State)
    requires WellFormed(s) && s.phase.Preparing? && Fits(cfg, s.admitted, InHand(s.phase))
    ensures
      var kept := InHand(GoPreparing(s).phase);
      |kept| <= |InHand(s.phase)| && Fits(cfg, s.admitted, kept)
  {
    var todo, valid := s.phase.todo, s.phase.valid;
    PreparingHand(s);
    if todo == [] {
      assert valid + todo == valid;
    } else {
      FitsEitherWay(cfg, s.admitted, valid, todo);
    }
  }

  lemma PreparingBounded(cfg: Config, s: State)
    requires WellFormed(s) && Bounded(cfg, s) && s.phase.Preparing?
    ensures Bounded(cfg, GoPreparing(s))
  {
    PreparingFits(cfg, s);
    SameQueueBounded(cfg, s, GoPreparing(s));
  }

  lemma FetchingBounded(cfg: Config, s: State)
    requires WellFormed(s) && Bounded(cfg, s) && s.phase.Fetching?
    ensures Bounded(cfg, GoFetching(s))
  {
    var t := GoFetching(s);
    if t.phase.Opening? {
      assert Items(s.admitted, [t.phase.first]) >= 0;
    }
  }

  lemma ReturningBounded(cfg: Config, s: State)
    requires WellFormed(s) && Bounded(cfg, s) && (s.phase.Failing? || s.phase.Scattering?)
    ensures Bounded(cfg, GoStep(cfg, s))
  {
    OtherPhasesFrame(cfg, s);
  }

  lemma TurningBounded(cfg: Config, s: State)
    requires WellFormed(s) && Bounded(cfg, s) && (s.phase.Collecting? || s.phase.Starting?)
    ensures Bounded(cfg, GoStep(cfg, s))
  {
    if s.phase.Starting? { assert [] + s.phase.batch == s.phase.batch; }
  }

  lemma GoBounded(cfg: Config, s: State)
    requires WellFormed(s) && Bounded(cfg, s)
    ensures Bounded(cfg, GoStep(cfg, s))
  {
    match s.phase
    case Fetching => FetchingBounded(cfg, s);
    case Opening(_) => OpeningBounded(cfg, s);
    case Collecting(_, _, _) => TurningBounded(cfg, s);
    case Waiting(_, _, _) => WaitingBounded(cfg, s);
    case Starting(_) => TurningBounded(cfg, s);
    case Preparing(_, _, _, _, _) => PreparingBounded(cfg, s);
    case Failing(_) => ReturningBounded(cfg, s);
    case Scattering(_, _, _, _, _) => ReturningBounded(cfg, s);
    case _ =>
  }

  lemma StepBounded(cfg: Config, s: State, a: Action)
    requires WellFormed(s) && Bounded(cfg, s)
    ensures Bounded(cfg, Step(cfg, s, a))
  {
    if a.Enqueue? {
      EnqueueBounded(cfg, s, Envelope(a.requestId, a.inputs, a.deadline, s.now));
    } else if a.Go? {
      GoBounded(cfg, s);
    }
  }

  lemma {:induction false} RunBounded(cfg: Config, s: State, actions: seq<Action>)
    requires WellFormed(s) && Bounded(cfg, s)
    ensures Bounded(cfg, Run(cfg, s, actions))
    decreases |actions|
  {
    if actions != [] {
      var rest := actions[..|actions| - 1];
      RunBounded(cfg, s, rest);
      StepBounded(cfg, Run(cfg, s, rest), actions[|actions| - 1]);
    }
  }

  // ----- occupancy -----

  function Unsettled(s: State): set<nat> {
    set i: nat | i < |s.futures| && s.futures[i] == Pending
  }

  lemma {:induction false} AtMostAsMany(chosen: set<nat>, xs: seq<nat>)
    requires forall i: nat :: i in chosen ==> i in xs
    ensures |chosen| <= |xs|
  {
    if xs != [] {
      var x := xs[|xs| - 1];
      AtMostAsMany(chosen - {x}, xs[..|xs| - 1]);
      assert chosen <= (chosen - {x}) + {x};
    } else {
      assert chosen == {};
    }
  }

  /**
   Occupancy of a bounded worker: the queue respects its capacity, the reported depth exceeds it
   by at most the held envelope, the live requests fit queue and one batch, and each batch ever
   submitted respects the request limit and, unless it is a lone request, the item limit.
   */
  lemma {:induction false} OccupancyIsBounded(cfg: Config, now: real, actions: seq<Action>)
    requires cfg.queueCapacity > 0
    ensures
      var s := Run(cfg, Initial(now), actions);
      && |s.queue| <= cfg.queueCapacity
      && QueueDepth(s) <= cfg.queueCapacity + 1
      && |Unsettled(s)| <= cfg.queueCapacity + RequestLimit(cfg)
      && (forall k :: 0 <= k < |s.history.submitted| ==> Fits(cfg, s.admitted, s.history.submitted[k]))
  {
    var s := Run(cfg, Initial(now), actions);
    RunBounded(cfg, Initial(now), actions);
    RunConserves(cfg, Initial(now), actions);
    forall i: nat | i in Unsettled(s)
      ensures i in Custody(s)
    {
      PendingInCustody(s, i);
    }
    AtMostAsMany(Unsettled(s), Custody(s));
  }

  lemma PreparingSubmitsSomebody(s: State)
    requires WellFormed(s) && s.phase.Preparing?
    ensures
      var t := GoPreparing(s);
      || t.history.submitted == s.history.submitted
      || (t.history.submitted == s.history.submitted + [s.phase.valid] && s.phase.valid != [])
  {}

  /** No batch without a request is ever handed to the executor. */
  lemma {:induction false} NoBatchIsEmpty(cfg: Config, now: real, actions: seq<Action>)
    ensures forall batch :: batch in Run(cfg, Initial(now), actions).history.submitted ==> batch != []
    decreases |actions|
  {
    if actions != [] {
      var rest, a := actions[..|actions| - 1], actions[|actions| - 1];
      var u := Run(cfg, Initial(now), rest);
      NoBatchIsEmpty(cfg, now, rest);
      if a.Go? && u.phase.Preparing? {
        PreparingSubmitsSomebody(u);
      } else {
        OthersTakeNothing(cfg, u, a);
      }
    }
  }

  /** The coroutine never overwrites a held envelope: it writes the slot only when the slot is empty. */
  lemma {:induction false} HeldIsNeverOverwritten(cfg: Config, now: real, actions: seq<Action>, a: Action)
    ensures
      var s := Run(cfg, Initial(now), actions);
      var t := Step(cfg, s, a);
      s.hold.Some? && t.hold.Some? ==> t.hold == s.hold
  {
    RunBounded(cfg, Initial(now), actions);
    if Run(cfg, Initial(now), actions).hold.Some? { SlotKept(cfg, Run(cfg, Initial(now), actions), a); }
  }

  lemma SlotKept(cfg: Config, s: State, a: Action)
    requires WellFormed(s) && SlotFree(s) && s.hold.Some?
    ensures var t := Step(cfg, s, a); t.hold.Some? ==> t.hold == s.hold
  {
    if a.Go? && !s.phase.Fetching? { OtherPhasesFrame(cfg, s); }
  }

  // ----- progress -----

  /** Admissions that the coroutine has already committed to some batch or discarded. */
  function Committed(s: State): int {
    |s.admitted| - |Upcoming(s)|
  }

  /** What waits is the tail of the admission sequence; what went through the hold slot did so once. */
  ghost predicate Lined(s: State) {
    && SlotFree(s)
    && 0 <= Committed(s)
    && Upcoming(s) == Range(Committed(s), |s.admitted|)
    && Increasing(s.history.deferred)
    && Below(s.history.deferred, |s.admitted| - |s.queue|)
  }

  lemma LinedTail(s: State)
    requires WellFormed(s) && Lined(s) && s.queue != []
    ensures Upcoming(s)[1..] == Range(Committed(s) + 1, |s.admitted|)
    ensures s.queue[0] == |s.admitted| - |s.queue|
  {
    if s.hold.Some? { assert Upcoming(s)[1] == s.queue[0]; }
  }

  ghost predicate Advances(s: State, t: State) {
    Lined(t) && Committed(t) - Committed(s) >= t.history.iterations - s.history.iterations >= 0
  }

  lemma FetchingLined(s: State)
    requires WellFormed(s) && Lined(s) && s.phase.Fetching?
    ensures Advances(s, GoFetching(s))
  {
    var t := GoFetching(s);
    if !s.stopping && Upcoming(s) != [] {
      assert Upcoming(t) == Upcoming(s)[1..];
      if s.queue != [] { LinedTail(s); }
    }
  }

  /** What one envelope pulled while collecting may lead to, as far as the queue is concerned. */
  lemma WaitingQueue(cfg: Config, s: State)
    requires WellFormed(s) && s.phase.Waiting? && s.queue != []
    ensures
      var t := GoWaiting(cfg, s);
      && t.queue == s.queue[1..] && t.admitted == s.admitted && t.history.iterations == s.history.iterations
      && (|| (t.hold == s.hold && t.history.deferred == s.history.deferred)
          || (t.hold == Some(s.queue[0]) && t.phase.Starting? && t.history.deferred == s.history.deferred + [s.queue[0]]))
  {}

  lemma DeferringKeepsOrder(deferred: seq<nat>, i: nat)
    requires Increasing(deferred) && Below(deferred, i)
    ensures Increasing(deferred + [i]) && Below(deferred + [i], i + 1) && Below(deferred, i + 1)
  {}

  lemma WaitingLined(cfg: Config, s: State)
    requires WellFormed(s) && Lined(s) && s.phase.Waiting?
    ensures Advances(s, GoWaiting(cfg, s))
  {
    if s.queue != [] {
      var t := GoWaiting(cfg, s);
      WaitingQueue(cfg, s);
      LinedTail(s);
      DeferringKeepsOrder(s.history.deferred, s.queue[0]);
      assert t.hold.None? ==> Upcoming(t) == Upcoming(s)[1..];
      assert t.hold.Some? ==> Upcoming(t) == Upcoming(s);
    }
  }

  lemma OtherLined(cfg: Config, s: State)
    requires WellFormed(s) && Lined(s) && !s.phase.Fetching? && !s.phase.Waiting?
    ensures Advances(s, GoStep(cfg, s))
  {
    OtherPhasesFrame(cfg, s);
    StepKeepsSlotFree(cfg, s, Go);
  }

  lemma GoLined(cfg: Config, s: State)
    requires WellFormed(s) && Lined(s)
    ensures Advances(s, GoStep(cfg, s))
  {
    match s.phase
    case Fetching => FetchingLined(s);
    case Waiting(_, _, _) => WaitingLined(cfg, s);
    case _ => OtherLined(cfg, s);
  }

  lemma StepLined(cfg: Config, s: State, a: Action)
    requires WellFormed(s) && Lined(s)
    ensures Advances(s, Step(cfg, s, a))
  {
    if a.Go? {
      GoLined(cfg, s);
    } else if a.Enqueue? && Admit(cfg, s) == Accepted {
      AdmissionLined(s, Step(cfg, s, a));
    }
  }

  lemma AdmissionLined(s: State, t: State)
    requires Lined(s)
    requires t.queue == s.queue + [|s.admitted|] && |t.admitted| == |s.admitted| + 1
    requires t.hold == s.hold && t.phase == s.phase && t.history == s.history
    ensures Advances(s, t)
  {
    var n := |s.admitted|;
    assert Range(Committed(s), n + 1) == Range(Committed(s), n) + [n];
    assert Upcoming(t) == Upcoming(s) + [n];
  }

  lemma {:induction false} RunLined(cfg: Config, s: State, actions: seq<Action>)
    requires WellFormed(s) && Lined(s)
    ensures Advances(s, Run(cfg, s, actions))
    decreases |actions|
  {
    if actions != [] {
      var rest := actions[..|actions| - 1];
      RunLined(cfg, s, rest);
      StepLined(cfg, Run(cfg, s, rest), actions[|actions| - 1]);
    }
  }

  /**
   Progress: an envelope with k others waiting ahead of it is done once the coroutine has taken
   k + 1 further first envelopes and come back to fetch the next one.
   */
  lemma {:induction false} WaitingEnds(cfg: Config, now: real, before: seq<Action>, after: seq<Action>, k: nat)
    requires
      var s := Run(cfg, Initial(now), before);
      var t := Run(cfg, s, after);
      && k < |Upcoming(s)|
      && t.phase.Fetching?
      && t.history.iterations >= s.history.iterations + k + 1
    ensures
      var s := Run(cfg, Initial(now), before);
      var t := Run(cfg, s, after);
      var i := Upcoming(s)[k];
      i < |t.futures| && t.futures[i] != Pending
  {
    var s := Run(cfg, Initial(now), before);
    var t := Run(cfg, s, after);
    RunLined(cfg, Initial(now), before);
    RunLined(cfg, s, after);
    RunConserves(cfg, Initial(now), before);
    RunConserves(cfg, s, after);
    var i := Upcoming(s)[k];
    assert i == Committed(s) + k;
    AdmittedGrows(cfg, s, after);
    assert i !in Custody(t) by {
      assert Custody(t) == Upcoming(t);
      assert forall j :: 0 <= j < |Upcoming(t)| ==> Upcoming(t)[j] >= Committed(t);
    }
    OutOfCustodyIsDone(t, i);
  }

  lemma {:induction false} AdmittedGrows(cfg: Config, s: State, actions: seq<Action>)
    requires WellFormed(s)
    ensures s.admitted <= Run(cfg, s, actions).admitted
    decreases |actions|
  {
    if actions != [] {
      AdmittedGrows(cfg, s, actions[..|actions| - 1]);
      FuturesAreFinal(cfg, Run(cfg, s, actions[..|actions| - 1]), actions[|actions| - 1]);
    }
  }

  /** No envelope goes through the hold slot twice. */
  lemma {:induction false} DeferredAtMostOnce(cfg: Config, now: real, actions: seq<Action>)
    ensures Increasing(Run(cfg, Initial(now), actions).history.deferred)
  {
    RunLined(cfg, Initial(now), actions);
  }
}
