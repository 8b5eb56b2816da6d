/**
 Runs of the batcher as the program schedules them: when the coroutine is suspended, how many turns
 it takes to its next pause, and what it does when it is left alone.
 */
module BatchRuns {
  import opened BatchMachine
  import opened BatchConservation
  import opened BatchCapacity

  lemma RunOneMore(cfg: Config, s: State, actions: seq<Action>, a: Action)
    requires WellFormed(s)
    ensures Run(cfg, s, actions + [a]) == Step(cfg, Run(cfg, s, actions), a)
  {
    assert (actions + [a])[..|actions|] == actions;
  }

  // ----- suspension -----

  /** The coroutine awaits something that is not there yet, or has ended. */
  predicate Idle(s: State) {
    || s.phase.Executing?
    || s.phase.Stopped?
    || (s.phase.Fetching? && !s.stopping && Upcoming(s) == [])
    || (s.phase.Waiting? && s.queue == [])
  }

  /** After these actions the coroutine is suspended: it found nothing, and has had no turn since. */
  ghost predicate Suspended(cfg: Config, s: State, actions: seq<Action>)
    requires WellFormed(s)
    decreases |actions|
  {
    var t := Run(cfg, s, actions);
    || Idle(t)
    || (&& actions != [] && (t.phase.Fetching? || t.phase.Waiting?)
        && var a := actions[|actions| - 1];
           (a.Enqueue? || a.Cancel? || a.Tick?) && Suspended(cfg, s, actions[..|actions| - 1]))
  }

  /** Handlers and shutdown act only while the coroutine is suspended, and the timer fires only when it is due. */
  ghost predicate Permitted(cfg: Config, s: State, before: seq<Action>, a: Action)
    requires WellFormed(s)
  {
    && (a.Enqueue? || a.Cancel? || a.Close? ==> Suspended(cfg, s, before))
    && (a.Timeout? ==>
          var t := Run(cfg, s, before); t.phase.Waiting? && t.phase.timer <= t.now && Suspended(cfg, s, before))
  }

  /** The runs that the program's event loop allows. */
  ghost predicate ProgramRun(cfg: Config, s: State, actions: seq<Action>)
    requires WellFormed(s)
    decreases |actions|
  {
    actions != [] ==>
      var rest := actions[..|actions| - 1];
      ProgramRun(cfg, s, rest) && Permitted(cfg, s, rest, actions[|actions| - 1])
  }

  lemma ProgramRunOneMore(cfg: Config, s: State, actions: seq<Action>, a: Action)
    requires WellFormed(s) && ProgramRun(cfg, s, actions) && Permitted(cfg, s, actions, a)
    ensures ProgramRun(cfg, s, actions + [a])
  {
    assert (actions + [a])[..|actions|] == actions;
  }

  // ----- turns to the next pause -----

  /** Where the coroutine awaits the queue or the executor, or has ended. */
  predicate Paused(p: Phase) {
    p.Fetching? || p.Waiting? || p.Executing? || p.Stopped?
  }

  /** How many turns the coroutine may still take before it pauses. */
  function TurnsLeft(p: Phase): nat {
    match p
    case Opening(_) => 5
    case Collecting(batch, _, _) => |batch| + 3
    case Starting(batch) => |batch| + 2
    case Preparing(todo, _, _, _, _) => |todo| + 1
    case Failing(todo) => |todo| + 1
    case Scattering(todo, _, _, _, _) => |todo| + 1
    case _ => 0
  }

  function Turns(actions: seq<Action>): nat {
    if actions == [] then 0 else Turns(actions[..|actions| - 1]) + if actions[|actions| - 1].Go? then 1 else 0
  }

  lemma StepTakesTurn(cfg: Config, s: State, a: Action)
    requires WellFormed(s) && !Paused(s.phase)
    ensures TurnsLeft(Step(cfg, s, a).phase) + (if a.Go? then 1 else 0) <= TurnsLeft(s.phase)
  {}

  predicate PausedAfter(cfg: Config, s: State, actions: seq<Action>, k: nat)
    requires WellFormed(s) && k <= |actions|
  {
    Paused(Run(cfg, s, actions[..k]).phase)
  }

  lemma {:induction false} TurnsAreSpent(cfg: Config, s: State, actions: seq<Action>)
    requires WellFormed(s)
    ensures (exists k :: 0 <= k <= |actions| && PausedAfter(cfg, s, actions, k))
         || TurnsLeft(Run(cfg, s, actions).phase) + Turns(actions) <= TurnsLeft(s.phase)
    decreases |actions|
  {
    if actions != [] {
      var rest := actions[..|actions| - 1];
      TurnsAreSpent(cfg, s, rest);
      if k :| 0 <= k <= |rest| && PausedAfter(cfg, s, rest, k) {
        assert rest[..k] == actions[..k];
        assert PausedAfter(cfg, s, actions, k);
      } else {
        assert rest[..|rest|] == rest;
        assert !PausedAfter(cfg, s, rest, |rest|);
        StepTakesTurn(cfg, Run(cfg, s, rest), actions[|actions| - 1]);
      }
    }
  }

  /**
   Whatever happens in between, the coroutine reaches its queue, its wait or the executor, or ends,
   within as many of its own turns as the request limit plus four.
   */
  lemma {:induction false} CoroutinePausesSoon(cfg: Config, now: real, before: seq<Action>, after: seq<Action>)
    requires Turns(after) >= RequestLimit(cfg) + 4
    ensures exists k :: 0 <= k <= |after| && PausedAfter(cfg, Run(cfg, Initial(now), before), after, k)
  {
    var s := Run(cfg, Initial(now), before);
    RunBounded(cfg, Initial(now), before);
    TurnsAreSpent(cfg, s, after);
    HandBoundsTurns(cfg, s);
    assert after[..|after|] == after;
    if !PausedAfter(cfg, s, after, |after|) {
      assert TurnsLeft(Run(cfg, s, after).phase) > 0;
    }
  }

  lemma HandBoundsTurns(cfg: Config, s: State)
    requires WellFormed(s) && Bounded(cfg, s)
    ensures TurnsLeft(s.phase) <= RequestLimit(cfg) + 4
  {}

  // ----- the coroutine left alone -----

  type BatchModel = seq<string> -> Output

  /** What happens next when nobody interferes: the executor answers, a due timer fires, the coroutine moves. */
  function NextMove(model: BatchModel, s: State): Action {
    if s.phase.Executing? then Return(model(s.phase.flat))
    else if s.phase.Waiting? && s.queue == [] then
      if s.now < s.phase.timer then Tick(s.phase.timer - s.now) else Timeout
    else Go
  }

  function Moves(cfg: Config, model: BatchModel, s: State, n: nat): seq<Action>
    requires WellFormed(s)
  {
    if n == 0 then []
    else
      var moves := Moves(cfg, model, s, n - 1);
      moves + [NextMove(model, Run(cfg, s, moves))]
  }

  /** The state n moves on. */
  function Left(cfg: Config, model: BatchModel, s: State, n: nat): (t: State)
    requires WellFormed(s)
    ensures WellFormed(t)
  {
    Run(cfg, s, Moves(cfg, model, s, n))
  }

  lemma OneMoveOn(cfg: Config, model: BatchModel, s: State, n: nat)
    requires WellFormed(s) && n > 0
    ensures var u := Left(cfg, model, s, n - 1); Left(cfg, model, s, n) == Step(cfg, u, NextMove(model, u))
  {
    var moves := Moves(cfg, model, s, n - 1);
    RunOneMore(cfg, s, moves, NextMove(model, Run(cfg, s, moves)));
  }

  /** The n-th tape is the one before and the next move. */
  ghost predicate OneMoreMove(cfg: Config, model: BatchModel, s: State, tape: nat -> seq<Action>, n: nat)
    requires WellFormed(s)
  {
    tape(n + 1) == tape(n) + [NextMove(model, Run(cfg, s, tape(n)))]
  }

  lemma MoveIsPermitted(cfg: Config, model: BatchModel, s: State, actions: seq<Action>)
    requires WellFormed(s)
    ensures Permitted(cfg, s, actions, NextMove(model, Run(cfg, s, actions)))
  {}

  lemma ProgramRunMoves(cfg: Config, model: BatchModel, s: State, actions: seq<Action>, longer: seq<Action>)
    requires WellFormed(s) && ProgramRun(cfg, s, actions)
    requires longer == actions + [NextMove(model, Run(cfg, s, actions))]
    ensures ProgramRun(cfg, s, longer)
  {
    MoveIsPermitted(cfg, model, s, actions);
    ProgramRunOneMore(cfg, s, actions, NextMove(model, Run(cfg, s, actions)));
  }

  lemma {:induction false} ProgramRunAlong(cfg: Config, model: BatchModel, s: State, tape: nat -> seq<Action>, n: nat)
    requires WellFormed(s) && tape(0) == [] && forall k: nat :: OneMoreMove(cfg, model, s, tape, k)
    ensures ProgramRun(cfg, s, tape(n))
  {
    if n > 0 {
      ProgramRunAlong(cfg, model, s, tape, n - 1);
      assert OneMoreMove(cfg, model, s, tape, n - 1);
      ProgramRunMoves(cfg, model, s, tape(n - 1), tape(n));
    }
  }

  /** Moves are what the program does when no handler acts. */
  lemma MovesAreProgramRun(cfg: Config, model: BatchModel, s: State, n: nat)
    requires WellFormed(s)
    ensures ProgramRun(cfg, s, Moves(cfg, model, s, n))
  {
    var tape := (k: nat) => Moves(cfg, model, s, k);
    assert forall k: nat :: OneMoreMove(cfg, model, s, tape, k);
    ProgramRunAlong(cfg, model, s, tape, n);
  }

  /** Nothing is left to do, or the coroutine has ended. */
  predicate AtRest(s: State) {
    s.phase.Stopped? || (s.phase.Fetching? && !s.stopping && Upcoming(s) == [])
  }

  function PhaseWork(s: State): nat {
    match s.phase
    case Fetching => 1
    case Opening(_) => 11
    case Collecting(batch, _, _) => 2 * |batch| + 8
    case Waiting(batch, _, timer) => 2 * |batch| + 6 + if s.now < timer then 1 else 0
    case Starting(batch) => 2 * |batch| + 5
    case Preparing(todo, _, valid, _, _) => 2 * |todo| + |valid| + 4
    case Executing(_, valid, _, _) => |valid| + 3
    case Failing(todo) => |todo| + 2
    case Scattering(todo, _, _, _, _) => |todo| + 2
    case Stopped(_) => 0
  }

  /** A bound on the moves to rest. */
  function Work(s: State): nat {
    12 * |Upcoming(s)| + PhaseWork(s)
  }

  lemma FetchingWorks(cfg: Config, s: State)
    requires WellFormed(s) && s.phase.Fetching? && !AtRest(s)
    ensures Work(GoFetching(s)) < Work(s)
  {}

  lemma WaitingWorks(cfg: Config, s: State)
    requires WellFormed(s) && SlotFree(s) && s.phase.Waiting? && s.queue != []
    ensures Work(GoWaiting(cfg, s)) < Work(s)
  {
    WaitingMoves(cfg, s);
  }

  lemma OthersWork(cfg: Config, s: State)
    requires WellFormed(s) && !Paused(s.phase)
    ensures Work(GoStep(cfg, s)) < Work(s)
  {
    OtherPhasesFrame(cfg, s);
  }

  lemma MoveWorks(cfg: Config, model: BatchModel, s: State)
    requires WellFormed(s) && SlotFree(s) && !AtRest(s)
    ensures Work(Step(cfg, s, NextMove(model, s))) < Work(s)
  {
    match s.phase
    case Fetching => FetchingWorks(cfg, s);
    case Waiting(_, _, _) => if s.queue != [] { WaitingWorks(cfg, s); }
    case Executing(_, _, _, _) =>
    case _ => OthersWork(cfg, s);
  }

  lemma RestStays(cfg: Config, model: BatchModel, s: State)
    requires WellFormed(s) && AtRest(s)
    ensures Step(cfg, s, NextMove(model, s)) == s
  {}

  /** At rest after n moves, or at most total - n units of work away from it. */
  predicate OnPace(s: State, n: nat, total: nat) {
    SlotFree(s) && (AtRest(s) || Work(s) + n <= total)
  }

  lemma MoveKeepsPace(cfg: Config, model: BatchModel, s: State, n: nat, total: nat)
    requires WellFormed(s) && OnPace(s, n, total)
    ensures OnPace(Step(cfg, s, NextMove(model, s)), n + 1, total)
  {
    StepKeepsSlotFree(cfg, s, NextMove(model, s));
    if AtRest(s) { RestStays(cfg, model, s); } else { MoveWorks(cfg, model, s); }
  }

  lemma {:induction false} MovesLessenWork(cfg: Config, model: BatchModel, s: State, n: nat)
    requires WellFormed(s) && SlotFree(s)
    ensures OnPace(Left(cfg, model, s, n), n, Work(s))
  {
    if n > 0 {
      MovesLessenWork(cfg, model, s, n - 1);
      OneMoveOn(cfg, model, s, n);
      MoveKeepsPace(cfg, model, Left(cfg, model, s, n - 1), n - 1, Work(s));
    }
  }

  /** Left alone, the coroutine comes to rest. */
  lemma {:induction false} MovesReachRest(cfg: Config, model: BatchModel, s: State)
    requires WellFormed(s) && SlotFree(s)
    ensures AtRest(Left(cfg, model, s, Work(s) + 1))
  {
    MovesLessenWork(cfg, model, s, Work(s) + 1);
  }
}
