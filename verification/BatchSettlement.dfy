/**
 What a future may be settled with, when, and how often, over whole runs of the batcher.
 */
module BatchSettlement {
  import opened BatchMachine
  import opened BatchConservation
  import opened BatchRequests

  /** A result is in time; a deadline error is late. */
  predicate Justified(env: Envelope, outcome: Future, at: real) {
    match outcome
    case Value(_) => at <= env.deadline
    case Error(failure) => failure == InferenceFailed || at > env.deadline
    case _ => false
  }

  /** The settlement record agrees with the futures, names each ticket once, and is justified. */
  ghost predicate Sound(s: State)
    requires WellFormed(s)
  {
    var log := s.history.settlements;
    && (forall k :: 0 <= k < |log| ==> Recorded(s, log[k]))
    && (forall j, k :: 0 <= j < k < |log| ==> log[j].ticket != log[k].ticket)
    && (forall i :: 0 <= i < |s.futures| && (s.futures[i].Value? || s.futures[i].Error?) ==> Logged(log, i))
  }

  predicate Recorded(s: State, entry: Settlement)
    requires WellFormed(s)
  {
    && entry.ticket < |s.futures|
    && s.futures[entry.ticket] == entry.outcome
    && Justified(s.admitted[entry.ticket], entry.outcome, entry.at)
  }

  ghost predicate Logged(log: seq<Settlement>, i: nat) {
    exists k :: 0 <= k < |log| && log[k].ticket == i
  }

  // ----- what one step may do to the futures -----

  /** No settlement: futures stay, except that pending ones may be cancelled and new ones are pending. */
  ghost predicate Spares(s: State, t: State)
    requires WellFormed(s) && WellFormed(t)
  {
    && s.admitted <= t.admitted
    && t.history.settlements == s.history.settlements
    && (forall i :: 0 <= i < |s.futures| ==>
          t.futures[i] == s.futures[i] || (s.futures[i] == Pending && t.futures[i] == Cancelled))
    && (forall i :: |s.futures| <= i < |t.futures| ==> t.futures[i] == Pending)
  }

  /** One pending future is settled, now, and with good reason. */
  ghost predicate Settles(s: State, t: State, i: nat, outcome: Future)
    requires WellFormed(s) && WellFormed(t)
  {
    && i < |s.futures| && s.futures[i] == Pending
    && t.admitted == s.admitted
    && t.futures == s.futures[i := outcome]
    && t.history.settlements == s.history.settlements + [Settlement(i, outcome, s.now)]
    && Justified(s.admitted[i], outcome, s.now)
    && (outcome.Value? ==> Answering(s, i) && outcome.result == ResultFor(s))
  }

  /** The envelope whose slice of the output is handed out next. */
  predicate Answering(s: State, i: nat) {
    s.phase.Scattering? && s.phase.todo != [] && s.phase.todo[0] == i
  }

  ghost predicate SparesOrSettles(s: State, t: State)
    requires WellFormed(s) && WellFormed(t)
  {
    Spares(s, t) || exists i, outcome :: Settles(s, t, i, outcome)
  }

  lemma FetchingSettles(s: State)
    requires WellFormed(s) && s.phase.Fetching?
    ensures SparesOrSettles(s, GoFetching(s))
  {
    var t := GoFetching(s);
    if !s.stopping && Upcoming(s) != [] {
      var i := Upcoming(s)[0];
      if s.futures[i] == Pending && s.now > s.admitted[i].deadline {
        assert Settles(s, t, i, Error(ExpiredInQueue));
      }
    }
  }

  lemma WaitingSettles(cfg: Config, s: State)
    requires WellFormed(s) && s.phase.Waiting?
    ensures SparesOrSettles(s, GoWaiting(cfg, s))
  {
    var t := GoWaiting(cfg, s);
    if s.queue != [] {
      var i := s.queue[0];
      if s.futures[i] == Pending && s.now > s.admitted[i].deadline {
        assert Settles(s, t, i, Error(ExpiredInQueue));
      }
    }
  }

  lemma PreparingSettles(s: State)
    requires WellFormed(s) && s.phase.Preparing?
    ensures SparesOrSettles(s, GoPreparing(s))
  {
    var t := GoPreparing(s);
    if s.phase.todo != [] {
      var i := s.phase.todo[0];
      if s.futures[i] == Pending && s.now > s.admitted[i].deadline {
        assert Settles(s, t, i, Error(ExpiredBeforeExecution));
      }
    }
  }

  lemma FailingSettles(s: State)
    requires WellFormed(s) && s.phase.Failing?
    ensures SparesOrSettles(s, GoFailing(s))
  {
    if s.phase.todo != [] && s.futures[s.phase.todo[0]] == Pending {
      assert Settles(s, GoFailing(s), s.phase.todo[0], Error(InferenceFailed));
    }
  }

  lemma ScatteringSettles(s: State)
    requires WellFormed(s) && s.phase.Scattering?
    ensures SparesOrSettles(s, GoScattering(s))
  {
    if s.phase.todo != [] && s.futures[s.phase.todo[0]] == Pending {
      var i := s.phase.todo[0];
      var outcome := if s.now > s.admitted[i].deadline then Error(ExpiredAfterExecution) else Value(ResultFor(s));
      assert Settles(s, GoScattering(s), i, outcome);
    }
  }

  lemma StepSettles(cfg: Config, s: State, a: Action)
    requires WellFormed(s)
    ensures SparesOrSettles(s, Step(cfg, s, a))
    ensures !a.Go? ==> Spares(s, Step(cfg, s, a))
  {
    if a.Go? {
      match s.phase
      case Fetching => FetchingSettles(s);
      case Waiting(_, _, _) => WaitingSettles(cfg, s);
      case Preparing(_, _, _, _, _) => PreparingSettles(s);
      case Failing(_) => FailingSettles(s);
      case Scattering(_, _, _, _, _) => ScatteringSettles(s);
      case _ =>
    }
  }

  lemma SettlingKeepsSound(s: State, t: State)
    requires WellFormed(s) && WellFormed(t) && Sound(s) && SparesOrSettles(s, t)
    ensures Sound(t)
  {
    var log, log' := s.history.settlements, t.history.settlements;
    forall k | 0 <= k < |log|
      ensures Recorded(t, log[k])
    {
      assert Recorded(s, log[k]);
    }
    if !Spares(s, t) {
      var i, outcome :| Settles(s, t, i, outcome);
      assert log'[|log|] == Settlement(i, outcome, s.now);
      forall j | 0 <= j < |t.futures| && (t.futures[j].Value? || t.futures[j].Error?)
        ensures Logged(log', j)
      {
        if j != i {
          var k :| 0 <= k < |log| && log[k].ticket == j;
          assert log'[k].ticket == j;
        }
      }
    }
  }

  lemma {:induction false} RunKeepsSound(cfg: Config, s: State, actions: seq<Action>)
    requires WellFormed(s) && Sound(s)
    ensures Sound(Run(cfg, s, actions))
    decreases |actions|
  {
    if actions != [] {
      var u, a := Run(cfg, s, actions[..|actions| - 1]), actions[|actions| - 1];
      RunKeepsSound(cfg, s, actions[..|actions| - 1]);
      StepSettles(cfg, u, a);
      SettlingKeepsSound(u, Step(cfg, u, a));
    }
  }

  // ----- main results -----

  /**
   Over a whole run the batcher settles each future at most once, with a result only while the
   deadline has not passed and with a deadline error only after it has, by the deadline its caller
   gave; what it settled is what the future still holds, and every result or error a future holds was
   put there by it.
   */
  lemma {:induction false} SettlementIsSound(cfg: Config, now: real, actions: seq<Action>)
    ensures
      var s, asked := Run(cfg, Initial(now), actions), Requests(cfg, Initial(now), actions);
      && Sound(s) && |s.futures| == |asked|
      && forall k :: 0 <= k < |s.history.settlements| ==>
           var entry := s.history.settlements[k];
           entry.ticket < |asked| && Justified(asked[entry.ticket], entry.outcome, entry.at)
  {
    RunKeepsSound(cfg, Initial(now), actions);
    TicketsAreRequests(cfg, now, actions);
    var s := Run(cfg, Initial(now), actions);
    forall k | 0 <= k < |s.history.settlements|
      ensures s.history.settlements[k].ticket < |s.admitted|
      ensures Justified(s.admitted[s.history.settlements[k].ticket], s.history.settlements[k].outcome, s.history.settlements[k].at)
    {
      assert Recorded(s, s.history.settlements[k]);
    }
  }

  /** A future that is done keeps its outcome for the rest of the run. */
  lemma {:induction false} OutcomesAreFinal(cfg: Config, s: State, actions: seq<Action>, i: nat)
    requires WellFormed(s)
    requires i < |s.futures| && s.futures[i] != Pending
    ensures var t := Run(cfg, s, actions); i < |t.futures| && t.futures[i] == s.futures[i]
    decreases |actions|
  {
    if actions != [] {
      var rest := actions[..|actions| - 1];
      OutcomesAreFinal(cfg, s, rest, i);
      FuturesAreFinal(cfg, Run(cfg, s, rest), actions[|actions| - 1]);
    }
  }

  /** An error names the place where its request was given up, and an expiry comes after the deadline. */
  lemma ErrorsNameThePlace(cfg: Config, s: State, a: Action, i: nat)
    requires WellFormed(s) && i < |s.futures| && s.futures[i] == Pending
    requires Step(cfg, s, a).futures[i].Error?
    ensures
      && a.Go?
      && match Step(cfg, s, a).futures[i].failure {
           case ExpiredInQueue => (s.phase.Fetching? || s.phase.Waiting?) && s.now > s.admitted[i].deadline
           case ExpiredBeforeExecution => s.phase.Preparing? && s.now > s.admitted[i].deadline
           case ExpiredAfterExecution => s.phase.Scattering? && s.now > s.admitted[i].deadline
           case InferenceFailed => s.phase.Failing?
         }
  {
    StepSettles(cfg, s, a);
  }

  // ----- withdrawals -----

  /** The k-th action withdrew request i while it was pending. */
  predicate WithdrawnAt(cfg: Config, s: State, actions: seq<Action>, k: nat, i: nat)
    requires WellFormed(s)
  {
    && k < |actions| && actions[k] == Cancel(i)
    && var u := Run(cfg, s, actions[..k]);
       i < |u.futures| && u.futures[i] == Pending
  }

  ghost predicate Withdrawn(cfg: Config, s: State, actions: seq<Action>, i: nat)
    requires WellFormed(s)
  {
    exists k: nat :: WithdrawnAt(cfg, s, actions, k, i)
  }

  lemma TurnsCancelNobody(cfg: Config, s: State, i: nat)
    requires WellFormed(s) && i < |s.futures|
    ensures var t := GoStep(cfg, s); i < |t.futures| && (t.futures[i] == Cancelled <==> s.futures[i] == Cancelled)
  {}

  lemma StepCancels(cfg: Config, s: State, a: Action, i: nat)
    requires WellFormed(s)
    ensures
      var t := Step(cfg, s, a);
      i < |t.futures| && t.futures[i] == Cancelled <==>
        i < |s.futures| && (s.futures[i] == Cancelled || (s.futures[i] == Pending && a == Cancel(i)))
  {
    if a.Go? && i < |s.futures| { TurnsCancelNobody(cfg, s, i); }
    if a.Go? { TurnsAreFinal(cfg, s); }
  }

  lemma WithdrawnAlong(cfg: Config, s: State, actions: seq<Action>, i: nat)
    requires WellFormed(s) && actions != []
    ensures Withdrawn(cfg, s, actions, i) <==>
              Withdrawn(cfg, s, actions[..|actions| - 1], i) || WithdrawnAt(cfg, s, actions, |actions| - 1, i)
  {
    var rest := actions[..|actions| - 1];
    forall k: nat | k < |rest|
      ensures WithdrawnAt(cfg, s, rest, k, i) <==> WithdrawnAt(cfg, s, actions, k, i)
    {
      assert rest[..k] == actions[..k];
    }
  }

  /** A future is cancelled exactly when its caller withdrew the request while it was pending. */
  lemma {:induction false} CancelledExactly(cfg: Config, now: real, actions: seq<Action>, i: nat)
    ensures
      var s := Run(cfg, Initial(now), actions);
      i < |s.futures| && s.futures[i] == Cancelled <==> Withdrawn(cfg, Initial(now), actions, i)
    decreases |actions|
  {
    if actions != [] {
      var rest, a := actions[..|actions| - 1], actions[|actions| - 1];
      CancelledExactly(cfg, now, rest, i);
      StepCancels(cfg, Run(cfg, Initial(now), rest), a, i);
      WithdrawnAlong(cfg, Initial(now), actions, i);
    }
  }

  // ----- measured times -----

  ghost predicate EnqueuedBy(s: State, xs: seq<nat>, time: real) {
    forall k :: 0 <= k < |xs| ==> xs[k] < |s.admitted| && s.admitted[xs[k]].enqueueTime <= time
  }

  ghost predicate Timed(s: State)
    requires WellFormed(s)
  {
    && (forall i :: 0 <= i < |s.admitted| ==> s.admitted[i].enqueueTime <= s.now)
    && match s.phase {
         case Preparing(todo, start, valid, _, _) =>
           start <= s.now && EnqueuedBy(s, todo, start) && EnqueuedBy(s, valid, start)
         case Executing(start, valid, _, _) => start <= s.now && EnqueuedBy(s, valid, start)
         case Scattering(todo, _, _, start, end) => start <= end <= s.now && EnqueuedBy(s, todo, start)
         case _ => true
       }
  }

  ghost predicate Measured(s: State) {
    forall i :: 0 <= i < |s.futures| && s.futures[i].Value? ==>
      0.0 <= s.futures[i].result.queueMs <= s.futures[i].result.workerTotalMs
  }

  lemma GoKeepsTimed(cfg: Config, s: State)
    requires WellFormed(s) && Timed(s)
    ensures Timed(GoStep(cfg, s))
  {
    match s.phase
    case Preparing(_, _, _, _, _) => PreparingKeepsTimed(s);
    case Scattering(_, _, _, _, _) => ScatteringKeepsTimed(s);
    case _ =>
  }

  lemma PreparingKeepsTimed(s: State)
    requires WellFormed(s) && Timed(s) && s.phase.Preparing?
    ensures Timed(GoPreparing(s))
  {
    var todo, start, valid := s.phase.todo, s.phase.start, s.phase.valid;
    if todo != [] {
      assert EnqueuedBy(s, todo[1..], start);
      assert EnqueuedBy(s, valid + [todo[0]], start);
    }
  }

  lemma ScatteringKeepsTimed(s: State)
    requires WellFormed(s) && Timed(s) && s.phase.Scattering?
    ensures Timed(GoScattering(s))
  {
    if s.phase.todo != [] {
      assert EnqueuedBy(s, s.phase.todo[1..], s.phase.start);
    }
  }

  lemma StepKeepsTimed(cfg: Config, s: State, a: Action)
    requires WellFormed(s) && Timed(s)
    ensures Timed(Step(cfg, s, a))
  {
    if a.Go? { GoKeepsTimed(cfg, s); }
  }

  lemma StepKeepsMeasured(cfg: Config, s: State, a: Action)
    requires WellFormed(s) && Timed(s) && Measured(s)
    ensures Measured(Step(cfg, s, a))
  {
    var t := Step(cfg, s, a);
    StepSettles(cfg, s, a);
    if !Spares(s, t) {
      var i, outcome :| Settles(s, t, i, outcome);
      if outcome.Value? { ClampsAreIdle(s); }
    }
  }

  lemma ClampsAreIdle(s: State)
    requires WellFormed(s) && Timed(s) && s.phase.Scattering? && s.phase.todo != []
    ensures
      var enqueued, r := s.admitted[s.phase.todo[0]].enqueueTime, ResultFor(s);
      && r.queueMs == (s.phase.start - enqueued) * 1000.0 >= 0.0
      && r.workerTotalMs == (s.phase.end - enqueued) * 1000.0 >= r.queueMs
  {
    assert s.phase.todo[0] < |s.admitted|;
  }

  /** In every reachable state all reported results satisfy 0 <= queueMs <= workerTotalMs, without any help of the clamps. */
  lemma {:induction false} TimesAreMeasured(cfg: Config, now: real, actions: seq<Action>)
    ensures var s := Run(cfg, Initial(now), actions); Timed(s) && Measured(s)
    decreases |actions|
  {
    if actions != [] {
      var rest := actions[..|actions| - 1];
      TimesAreMeasured(cfg, now, rest);
      StepKeepsTimed(cfg, Run(cfg, Initial(now), rest), actions[|actions| - 1]);
      StepKeepsMeasured(cfg, Run(cfg, Initial(now), rest), actions[|actions| - 1]);
    }
  }
}
