/**
 Shutdown: which requests are still answered after it, decided at the moment it is asked for.
 */
module BatchShutdown {
  import opened BatchMachine
  import opened BatchConservation
  import opened BatchCapacity
  import opened BatchRuns

  predicate Answered(f: Future) {
    f.Value? || f.Error?
  }

  /** Nothing but cancellations happens to the futures. */
  ghost predicate OnlyCancels(s: State, t: State) {
    && |t.futures| == |s.futures|
    && forall i :: 0 <= i < |s.futures| ==> t.futures[i] == s.futures[i] || (s.futures[i] == Pending && t.futures[i] == Cancelled)
  }

  lemma StoppedStep(cfg: Config, s: State, a: Action)
    requires WellFormed(s) && s.phase.Stopped? && s.stopping
    ensures var t := Step(cfg, s, a); t.phase.Stopped? && t.stopping && OnlyCancels(s, t)
  {}

  lemma {:induction false} StoppedForGood(cfg: Config, s: State, actions: seq<Action>)
    requires WellFormed(s) && s.phase.Stopped? && s.stopping
    ensures var t := Run(cfg, s, actions); t.phase.Stopped? && t.stopping && OnlyCancels(s, t)
    decreases |actions|
  {
    if actions != [] {
      var rest := actions[..|actions| - 1];
      StoppedForGood(cfg, s, rest);
      StoppedStep(cfg, Run(cfg, s, rest), actions[|actions| - 1]);
    }
  }

  function Stranded(now: real): Action {
    Enqueue("stranded", ["x"], now)
  }

  lemma StrandedIsAllowed(cfg: Config, now: real)
    ensures ProgramRun(cfg, Initial(now), [Stranded(now), Close])
  {
    assert Suspended(cfg, Initial(now), []);
    ProgramRunOneMore(cfg, Initial(now), [], Stranded(now));
    assert [] + [Stranded(now)] == [Stranded(now)] && [Stranded(now)][..0] == [];
    RunOneMore(cfg, Initial(now), [], Stranded(now));
    assert Suspended(cfg, Initial(now), [Stranded(now)]);
    ProgramRunOneMore(cfg, Initial(now), [Stranded(now)], Close);
    assert [Stranded(now)] + [Close] == [Stranded(now), Close];
  }

  lemma StrandedRun(cfg: Config, now: real)
    ensures Run(cfg, Initial(now), [Stranded(now), Close]) == Step(cfg, Step(cfg, Initial(now), Stranded(now)), Close)
  {
    RunOneMore(cfg, Initial(now), [], Stranded(now));
    RunOneMore(cfg, Initial(now), [Stranded(now)], Close);
    assert [] + [Stranded(now)] == [Stranded(now)] && [Stranded(now)] + [Close] == [Stranded(now), Close];
  }

  lemma StrandedStays(cfg: Config, now: real, after: seq<Action>)
    ensures
      var s := Step(cfg, Step(cfg, Initial(now), Stranded(now)), Close);
      var t := Run(cfg, s, after);
      s.phase.Stopped? && |t.futures| == 1 && !Answered(t.futures[0])
  {
    var queued := Step(cfg, Initial(now), Stranded(now));
    assert queued.futures == [Pending] && queued.phase.Fetching?;
    StoppedForGood(cfg, Step(cfg, queued, Close), after);
  }

  /** A run of the program after which an accepted request is never answered. */
  lemma {:induction false} ShutdownStrandsARequest(cfg: Config, now: real, after: seq<Action>)
    ensures
      var s := Run(cfg, Initial(now), [Stranded(now), Close]);
      var t := Run(cfg, s, after);
      && ProgramRun(cfg, Initial(now), [Stranded(now), Close])
      && s.phase.Stopped? && |t.futures| == 1 && !Answered(t.futures[0])
  {
    StrandedRun(cfg, now);
    StrandedIsAllowed(cfg, now);
    StrandedStays(cfg, now, after);
  }

  // ----- what is decided when shutdown is asked for -----

  predicate AnsweredIn(s: State, i: nat) {
    i < |s.futures| && Answered(s.futures[i])
  }

  /** Since c, where shutdown began, the coroutine has only worked on what it had in hand. */
  ghost predicate Winding(c: State, t: State) {
    && t.stopping && t.queue == c.queue && t.hold == c.hold
    && !t.phase.Opening? && !t.phase.Collecting? && !t.phase.Waiting?
    && forall i :: i in InHand(t.phase) ==> i in InHand(c.phase)
  }

  lemma PreparingWinds(c: State, t: State)
    requires WellFormed(t) && Winding(c, t) && t.phase.Preparing?
    ensures Winding(c, GoPreparing(t))
  {
    var todo := t.phase.todo;
    if todo != [] { assert todo == [todo[0]] + todo[1..]; }
  }

  lemma GoWinds(cfg: Config, c: State, t: State)
    requires WellFormed(t) && Winding(c, t)
    ensures Winding(c, GoStep(cfg, t))
  {
    if t.phase.Preparing? { PreparingWinds(c, t); }
  }

  lemma StepWinds(cfg: Config, c: State, t: State, a: Action)
    requires WellFormed(t) && Winding(c, t)
    ensures Winding(c, Step(cfg, t, a))
  {
    if a.Go? { GoWinds(cfg, c, t); }
  }

  lemma WindingAnswersInHand(cfg: Config, c: State, t: State, a: Action, i: nat)
    requires WellFormed(t) && Winding(c, t)
    requires i < |t.futures| && t.futures[i] == Pending && AnsweredIn(Step(cfg, t, a), i)
    ensures i in InHand(t.phase)
  {}

  lemma CloseWinds(cfg: Config, s: State)
    requires WellFormed(s) && (s.phase.Fetching? || s.phase.Waiting? || s.phase.Executing?)
    ensures var c := Step(cfg, s, Close); Winding(c, c)
  {}

  /** Nothing outside the hand is answered any more. */
  lemma {:induction false} RestIsNotAnswered(cfg: Config, c: State, actions: seq<Action>, i: nat)
    requires WellFormed(c) && Winding(c, c)
    requires i < |c.futures| && c.futures[i] == Pending && i !in InHand(c.phase)
    ensures var t := Run(cfg, c, actions); Winding(c, t) && i < |t.futures| && !AnsweredIn(t, i)
    decreases |actions|
  {
    if actions != [] {
      var rest, a := actions[..|actions| - 1], actions[|actions| - 1];
      var u := Run(cfg, c, rest);
      RestIsNotAnswered(cfg, c, rest, i);
      StepWinds(cfg, c, u, a);
      FuturesAreFinal(cfg, u, a);
      if u.futures[i] == Pending && AnsweredIn(Step(cfg, u, a), i) {
        WindingAnswersInHand(cfg, c, u, a, i);
      }
    }
  }

  /** What no later run answers: everything but an open batch. */
  lemma ShutdownLosesTheRest(cfg: Config, s: State, after: seq<Action>, i: nat)
    requires WellFormed(s) && (s.phase.Fetching? || s.phase.Waiting? || s.phase.Executing?)
    requires i < |s.futures| && s.futures[i] == Pending && !(s.phase.Waiting? && i in s.phase.batch)
    ensures !AnsweredIn(Run(cfg, Step(cfg, s, Close), after), i)
  {
    var c := Step(cfg, s, Close);
    if s.phase.Waiting? {
      CloseWinds(cfg, s);
      RestIsNotAnswered(cfg, c, after, i);
    } else {
      StoppedForGood(cfg, c, after);
    }
  }

  // ----- the open batch is served -----

  lemma StepEndsEmptyHanded(cfg: Config, s: State, a: Action)
    requires WellFormed(s) && !a.Close? && (s.phase.Stopped? ==> s.phase.abandoned == [])
    ensures var t := Step(cfg, s, a); t.phase.Stopped? ==> t.phase.abandoned == []
  {}

  /** Without a second shutdown the coroutine ends with nothing in hand. */
  lemma {:induction false} EndsEmptyHanded(cfg: Config, c: State, actions: seq<Action>)
    requires WellFormed(c) && Winding(c, c) && !c.phase.Stopped? && Close !in actions
    ensures var t := Run(cfg, c, actions); Winding(c, t) && (t.phase.Stopped? ==> t.phase.abandoned == [])
    decreases |actions|
  {
    if actions != [] {
      var rest, a := actions[..|actions| - 1], actions[|actions| - 1];
      EndsEmptyHanded(cfg, c, rest);
      assert a in actions;
      StepWinds(cfg, c, Run(cfg, c, rest), a);
      StepEndsEmptyHanded(cfg, Run(cfg, c, rest), a);
    }
  }

  /**
   After shutdown during the wait of an open batch, every member of that batch is done as soon as
   the coroutine has ended, unless a second shutdown interferes.
   */
  lemma OpenBatchIsServed(cfg: Config, s: State, after: seq<Action>, i: nat)
    requires WellFormed(s) && Conserved(s) && s.phase.Waiting? && i in s.phase.batch
    requires Close !in after && Run(cfg, Step(cfg, s, Close), after).phase.Stopped?
    ensures var t := Run(cfg, Step(cfg, s, Close), after); i < |t.futures| && t.futures[i] != Pending
  {
    var c := Step(cfg, s, Close);
    var t := Run(cfg, c, after);
    CloseWinds(cfg, s);
    EndsEmptyHanded(cfg, c, after);
    HandIsElsewhere(s.history.finished, s.phase.batch, Upcoming(s), i);
    assert Custody(t) == Upcoming(s);
    EndedConserved(cfg, s, after);
    BatchIsAdmitted(s, i);
    AdmittedGrows(cfg, c, after);
    OutOfCustodyIsDone(t, i);
  }

  lemma EndedConserved(cfg: Config, s: State, after: seq<Action>)
    requires WellFormed(s) && Conserved(s)
    ensures Conserved(Run(cfg, Step(cfg, s, Close), after))
  {
    StepConserves(cfg, s, Close);
    RunConserves(cfg, Step(cfg, s, Close), after);
  }

  lemma BatchIsAdmitted(s: State, i: nat)
    requires WellFormed(s) && s.phase.Waiting? && i in s.phase.batch
    ensures i < |s.admitted|
  {
    assert Below(s.phase.batch, |s.admitted|);
  }

  lemma StepCancelsNothing(cfg: Config, s: State, a: Action, i: nat)
    requires WellFormed(s) && !a.Cancel? && i < |s.futures| && s.futures[i] != Cancelled
    ensures var t := Step(cfg, s, a); i < |t.futures| && t.futures[i] != Cancelled
  {}

  predicate Unforced(a: Action) {
    !a.Cancel? && !a.Close?
  }

  lemma {:induction false} RunCancelsNothing(cfg: Config, s: State, actions: seq<Action>, i: nat)
    requires WellFormed(s) && i < |s.futures| && s.futures[i] != Cancelled
    requires AllUnforced(actions)
    ensures var t := Run(cfg, s, actions); i < |t.futures| && t.futures[i] != Cancelled
    decreases |actions|
  {
    if actions != [] {
      var rest, a := actions[..|actions| - 1], actions[|actions| - 1];
      RunCancelsNothing(cfg, s, rest, i);
      assert a in actions && Unforced(a);
      StepCancelsNothing(cfg, Run(cfg, s, rest), a, i);
    }
  }

  ghost predicate AllUnforced(actions: seq<Action>) {
    forall a :: a in actions ==> Unforced(a)
  }

  lemma MoveIsUnforced(model: BatchModel, s: State, actions: seq<Action>)
    requires AllUnforced(actions)
    ensures AllUnforced(actions + [NextMove(model, s)])
  {}

  lemma {:induction false} UnforcedAlong(cfg: Config, model: BatchModel, s: State, tape: nat -> seq<Action>, n: nat)
    requires WellFormed(s) && tape(0) == [] && forall k: nat :: OneMoreMove(cfg, model, s, tape, k)
    ensures AllUnforced(tape(n))
  {
    if n > 0 {
      UnforcedAlong(cfg, model, s, tape, n - 1);
      assert OneMoreMove(cfg, model, s, tape, n - 1);
      MoveIsUnforced(model, Run(cfg, s, tape(n - 1)), tape(n - 1));
    }
  }

  lemma MovesAreUnforced(cfg: Config, model: BatchModel, s: State, n: nat)
    requires WellFormed(s)
    ensures AllUnforced(Moves(cfg, model, s, n))
  {
    var tape := (k: nat) => Moves(cfg, model, s, k);
    assert forall k: nat :: OneMoreMove(cfg, model, s, tape, k);
    UnforcedAlong(cfg, model, s, tape, n);
  }

  ghost predicate CanBeAnswered(cfg: Config, c: State, i: nat)
    requires WellFormed(c)
  {
    exists after :: ProgramRun(cfg, c, after) && AnsweredIn(Run(cfg, c, after), i)
  }

  lemma OpenBatchCanBeAnswered(cfg: Config, s: State, i: nat)
    requires WellFormed(s) && Conserved(s) && s.phase.Waiting? && i in s.phase.batch
    requires i < |s.futures| && s.futures[i] == Pending
    ensures CanBeAnswered(cfg, Step(cfg, s, Close), i)
  {
    var c := Step(cfg, s, Close);
    var model: BatchModel := flat => Output([], 0.0, 0.0, 0.0);
    var after := Moves(cfg, model, c, Work(c) + 1);
    WindsDown(cfg, model, s);
    OpenBatchIsServed(cfg, s, after, i);
    RunCancelsNothing(cfg, c, after, i);
    assert AnsweredIn(Run(cfg, c, after), i);
  }

  lemma WindsDown(cfg: Config, model: BatchModel, s: State)
    requires WellFormed(s) && Conserved(s) && s.phase.Waiting?
    ensures
      var c := Step(cfg, s, Close);
      var after := Moves(cfg, model, c, Work(c) + 1);
      && ProgramRun(cfg, c, after) && Run(cfg, c, after).phase.Stopped?
      && Close !in after && AllUnforced(after)
  {
    var c := Step(cfg, s, Close);
    var n := Work(c) + 1;
    StepKeepsSlotFree(cfg, s, Close);
    MovesReachRest(cfg, model, c);
    MovesAreProgramRun(cfg, model, c, n);
    MovesAreUnforced(cfg, model, c, n);
    assert !Unforced(Close);
    CloseWinds(cfg, s);
    EndsEmptyHanded(cfg, c, Moves(cfg, model, c, n));
  }

  /**
   Which pending requests a shutdown may still answer, decided by the state it finds: exactly the
   members of a batch that is open for more envelopes. Requests that are queued, held or at the
   executor are lost in every run, as `ShutdownLosesTheRest` says.
   */
  lemma {:induction false} ShutdownAnswersExactlyTheOpenBatch(cfg: Config, now: real, before: seq<Action>, i: nat)
    requires
      var s := Run(cfg, Initial(now), before);
      && (s.phase.Fetching? || s.phase.Waiting? || s.phase.Executing?)
      && i < |s.futures| && s.futures[i] == Pending
    ensures
      var s := Run(cfg, Initial(now), before);
      CanBeAnswered(cfg, Step(cfg, s, Close), i) <==> s.phase.Waiting? && i in s.phase.batch
  {
    var s := Run(cfg, Initial(now), before);
    RunConserves(cfg, Initial(now), before);
    ShutdownDecides(cfg, s, i);
  }

  lemma ShutdownDecides(cfg: Config, s: State, i: nat)
    requires WellFormed(s) && Conserved(s) && (s.phase.Fetching? || s.phase.Waiting? || s.phase.Executing?)
    requires i < |s.futures| && s.futures[i] == Pending
    ensures CanBeAnswered(cfg, Step(cfg, s, Close), i) <==> s.phase.Waiting? && i in s.phase.batch
  {
    if s.phase.Waiting? && i in s.phase.batch {
      OpenBatchCanBeAnswered(cfg, s, i);
    } else {
      forall after
        ensures !AnsweredIn(Run(cfg, Step(cfg, s, Close), after), i)
      {
        ShutdownLosesTheRest(cfg, s, after, i);
      }
    }
  }
}
