/**
 A backlog that is left alone is drained: the program has such a run, it never disturbs the backlog,
 and it submits the backlog's next-fit batches.
 */
module BatchDrain {
  import opened Lists
  import opened BatchMachine
  import opened BatchConservation
  import opened BatchCapacity
  import opened BatchRuns
  import opened BatchPlan

  function Delay(cfg: Config): real {
    cfg.maxBatchDelayMs as real / 1000.0
  }

  /** The request still waits for its answer and may do so until then. */
  predicate Ready(s: State, i: nat, until: real) {
    i < |s.futures| == |s.admitted| && s.futures[i] == Pending && s.admitted[i].deadline >= until
  }

  /** Since `start` time has passed only in the wait of a last batch, and nothing unsubmitted has expired. */
  ghost predicate Calm(cfg: Config, s: State, start: real) {
    && !s.stopping && !s.phase.Stopped? && SlotFree(s)
    && (s.now == start || (s.now == start + Delay(cfg) && Upcoming(s) == [] && !s.phase.Opening? && !s.phase.Collecting?))
    && (s.phase.Collecting? || s.phase.Waiting? ==> s.phase.timer == start + Delay(cfg))
    && forall i :: i in Unsubmitted(s) ==> Ready(s, i, start + Delay(cfg))
  }

  lemma CalmIsUndisturbed(cfg: Config, model: BatchModel, s: State, start: real)
    requires WellFormed(s) && cfg.maxBatchDelayMs > 0 && Calm(cfg, s, start)
    ensures Undisturbed(s, NextMove(model, s))
  {
    assert Delay(cfg) > 0.0;
    forall i | i in Unsubmitted(s)
      ensures i < |s.futures| && Live(s, i)
    {
      assert Ready(s, i, start + Delay(cfg));
    }
  }

  /** The coroutine's moves neither add to what is unsubmitted nor settle any of it, as long as all of it is live. */
  ghost predicate LeavesRest(s: State, t: State) {
    && t.admitted == s.admitted
    && forall i :: i in Unsubmitted(t) ==>
         i in Unsubmitted(s) && i < |s.futures| && i < |t.futures| && t.futures[i] == s.futures[i]
  }

  lemma FetchingLeavesRest(s: State)
    requires WellFormed(s) && s.phase.Fetching? && !s.stopping && Upcoming(s) != [] && Live(s, Upcoming(s)[0])
    ensures var t := GoFetching(s); LeavesRest(s, t) && t.phase == Opening(Upcoming(s)[0])
  {
    assert Upcoming(GoFetching(s)) == Upcoming(s)[1..];
  }

  lemma WaitingLeavesRest(cfg: Config, s: State)
    requires WellFormed(s) && s.phase.Waiting? && SlotFree(s) && s.queue != [] && Live(s, s.queue[0])
    ensures var t := GoWaiting(cfg, s); LeavesRest(s, t) && t.futures == s.futures
  {
    WaitingMoves(cfg, s);
    assert s.queue[0] in s.queue;
  }

  lemma UnsubmittedIsAdmitted(s: State, i: nat)
    requires WellFormed(s) && i in Unsubmitted(s)
    ensures i < |s.futures|
  {}

  lemma NothingMoved(s: State, t: State)
    requires WellFormed(s) && WellFormed(t)
    requires t.admitted == s.admitted && t.futures == s.futures
    requires forall i :: i in Unsubmitted(t) ==> i in Unsubmitted(s)
    ensures LeavesRest(s, t)
  {
    forall i | i in Unsubmitted(t)
      ensures i < |s.futures|
    {
      UnsubmittedIsAdmitted(s, i);
    }
  }

  lemma TakingOver(todo: seq<nat>, valid: seq<nat>, rest: seq<nat>)
    requires todo != []
    ensures valid + [todo[0]] + todo[1..] + rest == valid + todo + rest
  {}

  lemma PreparingLeavesRest(s: State)
    requires WellFormed(s) && s.phase.Preparing? && (s.phase.todo != [] ==> Live(s, s.phase.todo[0]))
    ensures LeavesRest(s, GoPreparing(s))
  {
    var t := GoPreparing(s);
    var todo := s.phase.todo;
    if todo != [] {
      TakingOver(todo, s.phase.valid, Upcoming(s));
      assert Unsubmitted(t) == Unsubmitted(s);
    } else {
      forall i | i in Unsubmitted(t)
        ensures i in Unsubmitted(s)
      {
        assert i in Upcoming(s);
      }
    }
    NothingMoved(s, t);
  }

  lemma ReturningLeavesRest(cfg: Config, s: State)
    requires WellFormed(s) && (s.phase.Failing? || s.phase.Scattering?) && Increasing(Line(s))
    ensures LeavesRest(s, GoStep(cfg, s))
  {
    OtherPhasesFrame(cfg, s);
    var todo := s.phase.todo;
    if todo != [] {
      assert todo[0] in todo;
      HandIsElsewhere(s.history.finished, todo, Upcoming(s), todo[0]);
    }
  }

  lemma TurningLeavesRest(cfg: Config, s: State)
    requires WellFormed(s) && (s.phase.Opening? || s.phase.Collecting? || s.phase.Starting?)
    ensures LeavesRest(s, GoStep(cfg, s)) && GoStep(cfg, s).futures == s.futures
  {
    var t := GoStep(cfg, s);
    OtherPhasesFrame(cfg, s);
    if s.phase.Starting? { assert [] + s.phase.batch == s.phase.batch; }
    assert InHand(t.phase) == InHand(s.phase);
    assert Unsubmitted(t) == Unsubmitted(s);
    NothingMoved(s, t);
  }

  lemma CalmHeadIsLive(cfg: Config, s: State, start: real, i: nat)
    requires WellFormed(s) && cfg.maxBatchDelayMs > 0 && Calm(cfg, s, start) && i in Unsubmitted(s)
    ensures i < |s.futures| && Live(s, i)
  {
    assert Ready(s, i, start + Delay(cfg));
  }

  lemma CalmTurnLeavesRest(cfg: Config, s: State, start: real)
    requires WellFormed(s) && cfg.maxBatchDelayMs > 0 && Calm(cfg, s, start) && Increasing(Line(s))
    requires !s.phase.Executing? && !(s.phase.Waiting? && s.queue == [])
    ensures LeavesRest(s, GoStep(cfg, s))
  {
    match s.phase
    case Fetching =>
      if Upcoming(s) != [] {
        assert Upcoming(s)[0] in Unsubmitted(s);
        CalmHeadIsLive(cfg, s, start, Upcoming(s)[0]);
        FetchingLeavesRest(s);
      } else {
        assert GoStep(cfg, s) == s;
        StayingLeavesRest(cfg, s, start);
      }
    case Waiting(_, _, _) =>
      assert s.queue[0] in Upcoming(s);
      assert s.queue[0] in Unsubmitted(s);
      CalmHeadIsLive(cfg, s, start, s.queue[0]);
      WaitingLeavesRest(cfg, s);
    case Preparing(todo, _, valid, _, _) =>
      if todo != [] {
        assert todo[0] in valid + todo;
        assert todo[0] in Unsubmitted(s);
        CalmHeadIsLive(cfg, s, start, todo[0]);
      }
      PreparingLeavesRest(s);
    case Failing(_) => ReturningLeavesRest(cfg, s);
    case Scattering(_, _, _, _, _) => ReturningLeavesRest(cfg, s);
    case Stopped(_) => StayingLeavesRest(cfg, s, start);
    case _ => TurningLeavesRest(cfg, s);
  }

  lemma StayingLeavesRest(cfg: Config, s: State, start: real)
    requires WellFormed(s) && Calm(cfg, s, start)
    ensures LeavesRest(s, s)
  {
    forall i | i in Unsubmitted(s)
      ensures i < |s.futures|
    {
      assert Ready(s, i, start + Delay(cfg));
    }
  }

  lemma CalmMoveLeavesRest(cfg: Config, model: BatchModel, s: State, start: real)
    requires WellFormed(s) && cfg.maxBatchDelayMs > 0 && Calm(cfg, s, start) && Increasing(Line(s))
    ensures LeavesRest(s, Step(cfg, s, NextMove(model, s)))
  {
    if s.phase.Executing? || (s.phase.Waiting? && s.queue == []) {
      StayingLeavesRest(cfg, s, start);
    } else {
      CalmTurnLeavesRest(cfg, s, start);
    }
  }

  /** Time and timers along a move. */
  lemma CalmClock(cfg: Config, model: BatchModel, s: State, start: real)
    requires WellFormed(s) && cfg.maxBatchDelayMs > 0 && Calm(cfg, s, start)
    ensures
      var t := Step(cfg, s, NextMove(model, s));
      && !t.stopping && !t.phase.Stopped?
      && (t.now == start || (t.now == start + Delay(cfg) && Upcoming(t) == [] && !t.phase.Opening? && !t.phase.Collecting?))
      && (t.phase.Collecting? || t.phase.Waiting? ==> t.phase.timer == start + Delay(cfg))
  {
    assert Delay(cfg) > 0.0;
    if s.phase.Waiting? && s.queue != [] {
      WaitingMoves(cfg, s);
      assert s.queue[0] in Upcoming(s);
    } else if !Paused(s.phase) {
      OtherPhasesFrame(cfg, s);
    }
  }

  lemma MoveStaysCalm(cfg: Config, model: BatchModel, s: State, start: real)
    requires WellFormed(s) && cfg.maxBatchDelayMs > 0 && Calm(cfg, s, start) && Increasing(Line(s))
    ensures Calm(cfg, Step(cfg, s, NextMove(model, s)), start)
  {
    var t := Step(cfg, s, NextMove(model, s));
    CalmMoveLeavesRest(cfg, model, s, start);
    CalmClock(cfg, model, s, start);
    StepKeepsSlotFree(cfg, s, NextMove(model, s));
    forall i | i in Unsubmitted(t)
      ensures Ready(t, i, start + Delay(cfg))
    {
      assert Ready(s, i, start + Delay(cfg));
    }
  }

  /** `left` lists the states of a coroutine left alone, at least at this place. */
  ghost predicate Linked(cfg: Config, model: BatchModel, left: nat -> State, n: nat) {
    && WellFormed(left(n)) && Increasing(Line(left(n)))
    && left(n + 1) == Step(cfg, left(n), NextMove(model, left(n)))
  }

  lemma LeftIsLinked(cfg: Config, model: BatchModel, s: State, left: nat -> State, n: nat)
    requires WellFormed(s) && Conserved(s)
    requires left(n) == Left(cfg, model, s, n) && left(n + 1) == Left(cfg, model, s, n + 1)
    ensures Linked(cfg, model, left, n)
  {
    RunConserves(cfg, s, Moves(cfg, model, s, n));
    OneMoveOn(cfg, model, s, n + 1);
  }

  lemma {:induction false} CalmAlong(cfg: Config, model: BatchModel, left: nat -> State, start: real, n: nat)
    requires cfg.maxBatchDelayMs > 0 && Calm(cfg, left(0), start)
    requires forall k: nat :: Linked(cfg, model, left, k)
    ensures Calm(cfg, left(n), start)
  {
    if n > 0 {
      CalmAlong(cfg, model, left, start, n - 1);
      assert Linked(cfg, model, left, n - 1);
      MoveStaysCalm(cfg, model, left(n - 1), start);
    }
  }

  /** The n-th tape is the one before and one more undisturbed action. */
  ghost predicate Extended(cfg: Config, s: State, tape: nat -> seq<Action>, n: nat)
    requires WellFormed(s)
  {
    var longer := tape(n + 1);
    longer != [] && longer[..|longer| - 1] == tape(n) && Undisturbed(Run(cfg, s, tape(n)), longer[|longer| - 1])
  }

  lemma {:induction false} UndisturbedAlong(cfg: Config, s: State, tape: nat -> seq<Action>, n: nat)
    requires WellFormed(s) && tape(0) == [] && forall k: nat :: Extended(cfg, s, tape, k)
    ensures UndisturbedRun(cfg, s, tape(n))
  {
    if n > 0 {
      UndisturbedAlong(cfg, s, tape, n - 1);
      assert Extended(cfg, s, tape, n - 1);
    }
  }

  lemma CalmMoveExtends(cfg: Config, model: BatchModel, s: State, tape: nat -> seq<Action>, start: real, n: nat)
    requires WellFormed(s) && cfg.maxBatchDelayMs > 0 && Calm(cfg, Left(cfg, model, s, n), start)
    requires tape(n) == Moves(cfg, model, s, n) && tape(n + 1) == Moves(cfg, model, s, n + 1)
    ensures Extended(cfg, s, tape, n)
  {
    CalmIsUndisturbed(cfg, model, Left(cfg, model, s, n), start);
    var moves := Moves(cfg, model, s, n);
    assert (moves + [NextMove(model, Run(cfg, s, moves))])[..|moves|] == moves;
  }

  /** At the fetch, with all that waits live for the next batch delay. */
  ghost predicate Backlog(cfg: Config, s: State) {
    s.phase.Fetching? && !s.stopping && forall i :: i in Upcoming(s) ==> Ready(s, i, s.now + Delay(cfg))
  }

  /** Left alone, the coroutine serves everything that waits, without disturbance. */
  ghost predicate Drains(cfg: Config, model: BatchModel, s: State)
    requires WellFormed(s)
  {
    var during := Moves(cfg, model, s, Work(s) + 1);
    var t := Run(cfg, s, during);
    ProgramRun(cfg, s, during) && UndisturbedRun(cfg, s, during) && t.phase.Fetching? && Upcoming(t) == []
  }

  /**
   A backlog whose deadlines are a batch delay away is drained when it is left alone: there is such a
   run of the program, of bounded length, and it submits the backlog's next-fit batches in order.
   */
  lemma {:induction false} BacklogIsDrained(cfg: Config, model: BatchModel, now: real, before: seq<Action>)
    requires cfg.maxBatchDelayMs > 0 && Backlog(cfg, Run(cfg, Initial(now), before))
    ensures
      var s := Run(cfg, Initial(now), before);
      var t := Run(cfg, s, Moves(cfg, model, s, Work(s) + 1));
      Drains(cfg, model, s) && t.history.submitted == s.history.submitted + Drain(cfg, s.admitted, Upcoming(s))
  {
    ReachedBacklogDrains(cfg, model, now, before);
    DrainingSubmits(cfg, model, now, before);
  }

  lemma DrainingSubmits(cfg: Config, model: BatchModel, now: real, before: seq<Action>)
    requires var s := Run(cfg, Initial(now), before); s.phase.Fetching? && !s.stopping && Drains(cfg, model, s)
    ensures
      var s := Run(cfg, Initial(now), before);
      var t := Run(cfg, s, Moves(cfg, model, s, Work(s) + 1));
      t.history.submitted == s.history.submitted + Drain(cfg, s.admitted, Upcoming(s))
  {
    var s := Run(cfg, Initial(now), before);
    BacklogDrainsByNextFit(cfg, now, before, Moves(cfg, model, s, Work(s) + 1));
  }

  lemma ReachedBacklogDrains(cfg: Config, model: BatchModel, now: real, before: seq<Action>)
    requires cfg.maxBatchDelayMs > 0
    requires Backlog(cfg, Run(cfg, Initial(now), before))
    ensures Drains(cfg, model, Run(cfg, Initial(now), before))
  {
    RunConserves(cfg, Initial(now), before);
    CalmMovesDrain(cfg, model, Run(cfg, Initial(now), before));
  }

  lemma CalmMovesAreUndisturbed(cfg: Config, model: BatchModel, s: State, n: nat)
    requires WellFormed(s) && Conserved(s) && cfg.maxBatchDelayMs > 0 && Calm(cfg, s, s.now)
    ensures UndisturbedRun(cfg, s, Moves(cfg, model, s, n))
    ensures Calm(cfg, Left(cfg, model, s, n), s.now)
  {
    var left, tape := (k: nat) => Left(cfg, model, s, k), (k: nat) => Moves(cfg, model, s, k);
    forall k: nat
      ensures Linked(cfg, model, left, k)
    {
      LeftIsLinked(cfg, model, s, left, k);
    }
    forall k: nat
      ensures Extended(cfg, s, tape, k)
    {
      CalmAlong(cfg, model, left, s.now, k);
      CalmMoveExtends(cfg, model, s, tape, s.now, k);
    }
    CalmAlong(cfg, model, left, s.now, n);
    UndisturbedAlong(cfg, s, tape, n);
  }

  lemma CalmMovesDrain(cfg: Config, model: BatchModel, s: State)
    requires WellFormed(s) && Conserved(s) && cfg.maxBatchDelayMs > 0 && Backlog(cfg, s)
    ensures Drains(cfg, model, s)
  {
    var n := Work(s) + 1;
    assert Calm(cfg, s, s.now);
    CalmMovesAreUndisturbed(cfg, model, s, n);
    MovesAreProgramRun(cfg, model, s, n);
    MovesReachRest(cfg, model, s);
  }
}
