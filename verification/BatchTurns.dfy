/**
 Collecting a batch, told from the clock along the run: until when it stays open, who joins it, and
 what closes it.
 */
module BatchTurns {
  import opened Lists
  import opened BatchMachine
  import opened BatchRequests
  import opened BatchCapacity

  // ----- the batch timer -----

  /** The clock when the latest batch was opened, that is, at the turn that began to collect it. */
  function OpenedAt(cfg: Config, s: State, actions: seq<Action>): Option<real>
    requires WellFormed(s)
    decreases |actions|
  {
    if actions == [] then None
    else
      var rest := actions[..|actions| - 1];
      var u := Run(cfg, s, rest);
      if actions[|actions| - 1].Go? && u.phase.Opening? then Some(u.now) else OpenedAt(cfg, s, rest)
  }

  /** Less than the batch delay has passed since the batch was opened. */
  predicate Early(cfg: Config, since: Option<real>, now: real) {
    since.Some? && (now - since.value) * 1000.0 < cfg.maxBatchDelayMs as real
  }

  /** While a batch is collected, its timer ends one batch delay after it was opened. */
  predicate TimerKept(cfg: Config, since: Option<real>, p: Phase) {
    p.Collecting? || p.Waiting? ==> since.Some? && (p.timer - since.value) * 1000.0 == cfg.maxBatchDelayMs as real
  }

  lemma StepKeepsTimer(cfg: Config, s: State, a: Action, since: Option<real>)
    requires WellFormed(s) && TimerKept(cfg, since, s.phase)
    ensures TimerKept(cfg, if a.Go? && s.phase.Opening? then Some(s.now) else since, Step(cfg, s, a).phase)
  {
    if a.Go? && s.phase.Opening? { OpeningSetsTimer(cfg, s); }
  }

  lemma OpeningSetsTimer(cfg: Config, s: State)
    requires WellFormed(s) && s.phase.Opening?
    ensures TimerKept(cfg, Some(s.now), GoStep(cfg, s).phase)
  {}

  lemma {:induction false} RunKeepsTimer(cfg: Config, now: real, actions: seq<Action>)
    ensures TimerKept(cfg, OpenedAt(cfg, Initial(now), actions), Run(cfg, Initial(now), actions).phase)
    decreases |actions|
  {
    if actions != [] {
      var rest := actions[..|actions| - 1];
      RunKeepsTimer(cfg, now, rest);
      StepKeepsTimer(cfg, Run(cfg, Initial(now), rest), actions[|actions| - 1], OpenedAt(cfg, Initial(now), rest));
    }
  }

  // ----- how long a batch stays open -----

  /** The batch is within both limits, so one more envelope may be waited for. */
  predicate HasPlace(cfg: Config, asked: seq<Envelope>, batch: seq<nat>) {
    |batch| < cfg.maxBatchRequests && Items(asked, batch) < cfg.maxBatchItems
  }

  predicate Open(p: Phase) {
    p.Collecting? || p.Waiting?
  }

  /** What is known of a state of the run before its next step. */
  ghost predicate Known(cfg: Config, s: State, asked: seq<Envelope>, since: Option<real>)
    requires WellFormed(s)
  {
    && s.admitted == asked
    && TimerKept(cfg, since, s.phase)
    && (Open(s.phase) ==> s.phase.total == Items(asked, s.phase.batch))
  }

  lemma KnownAlong(cfg: Config, now: real, actions: seq<Action>)
    ensures
      var start := Initial(now);
      Known(cfg, Run(cfg, start, actions), Requests(cfg, start, actions), OpenedAt(cfg, start, actions))
  {
    TicketsAreRequests(cfg, now, actions);
    RunKeepsTimer(cfg, now, actions);
    RunBounded(cfg, Initial(now), actions);
  }

  /** The step begins to wait for one more envelope. */
  predicate EntersWait(s: State, t: State) {
    !s.phase.Waiting? && t.phase.Waiting?
  }

  lemma StepEntersWait(cfg: Config, s: State, a: Action, asked: seq<Envelope>, since: Option<real>)
    requires WellFormed(s) && Known(cfg, s, asked, since)
    ensures EntersWait(s, Step(cfg, s, a)) <==>
              s.phase.Collecting? && a.Go? && HasPlace(cfg, asked, InHand(s.phase)) && Early(cfg, since, s.now)
  {}

  /** The head of the queue is still wanted and in time. */
  predicate HeadInTime(s: State, asked: seq<Envelope>) {
    && s.queue != [] && s.queue[0] < |s.futures| && s.queue[0] < |asked|
    && s.futures[s.queue[0]] == Pending && s.now <= asked[s.queue[0]].deadline
  }

  /** With the head of the queue the batch would still be within the item limit. */
  predicate HeadFits(cfg: Config, s: State, asked: seq<Envelope>) {
    s.queue != [] && Items(asked, InHand(s.phase)) + SizeOf(asked, s.queue[0]) <= cfg.maxBatchItems
  }

  /** The step brings one more envelope into the open batch. */
  predicate Joins(s: State, t: State) {
    Open(s.phase) && Open(t.phase) && InHand(t.phase) != InHand(s.phase)
  }

  lemma StepJoins(cfg: Config, s: State, a: Action, asked: seq<Envelope>, since: Option<real>)
    requires WellFormed(s) && Known(cfg, s, asked, since)
    ensures
      var t := Step(cfg, s, a);
      && (Joins(s, t) <==> s.phase.Waiting? && a.Go? && HeadInTime(s, asked) && HeadFits(cfg, s, asked))
      && (Joins(s, t) ==> InHand(t.phase) == InHand(s.phase) + [s.queue[0]])
  {
    if a.Go? && s.phase.Waiting? && s.queue != [] {
      var batch := s.phase.batch;
      assert (batch + [s.queue[0]])[..|batch|] == batch;
      assert |batch + [s.queue[0]]| == |batch| + 1;
    }
  }

  predicate Closes(s: State, t: State) {
    Open(s.phase) && !Open(t.phase)
  }

  /** The head of the queue is pulled and has to be held for the next batch. */
  predicate HeadIsHeld(cfg: Config, s: State, a: Action, asked: seq<Envelope>) {
    s.phase.Waiting? && a.Go? && HeadInTime(s, asked) && !HeadFits(cfg, s, asked)
  }

  lemma StepCloses(cfg: Config, s: State, a: Action, asked: seq<Envelope>, since: Option<real>)
    requires WellFormed(s) && Known(cfg, s, asked, since)
    ensures
      var t := Step(cfg, s, a);
      && (Closes(s, t) <==>
            || (s.phase.Collecting? && a.Go? && !(HasPlace(cfg, asked, InHand(s.phase)) && Early(cfg, since, s.now)))
            || (s.phase.Waiting? && (a.Timeout? || a.Close?))
            || HeadIsHeld(cfg, s, a, asked))
      && (Closes(s, t) ==> t.phase == Starting(InHand(s.phase)))
      && (Open(s.phase) ==> t.hold == if HeadIsHeld(cfg, s, a, asked) then Some(s.queue[0]) else s.hold)
  {}

  // ----- main results on collecting -----

  /**
   In every reachable state: the coroutine begins to wait for one more envelope exactly when the
   batch is below both limits and less than the batch delay has passed since it was opened; an
   envelope joins exactly when it is pulled from the head of the queue during the wait, is wanted, in
   time and fits; and the batch is closed as it stands exactly when it is full, its delay is over, the
   wait is ended by the timer or by shutdown, or the pulled envelope does not fit and is held.
   */
  lemma {:induction false} CollectingExactly(cfg: Config, now: real, actions: seq<Action>, a: Action)
    ensures
      var start := Initial(now);
      var s, asked, since := Run(cfg, start, actions), Requests(cfg, start, actions), OpenedAt(cfg, start, actions);
      var t, batch := Step(cfg, s, a), InHand(s.phase);
      && (EntersWait(s, t) <==> s.phase.Collecting? && a.Go? && HasPlace(cfg, asked, batch) && Early(cfg, since, s.now))
      && (Joins(s, t) <==> s.phase.Waiting? && a.Go? && HeadInTime(s, asked) && HeadFits(cfg, s, asked))
      && (Joins(s, t) ==> InHand(t.phase) == batch + [s.queue[0]])
      && (Closes(s, t) <==>
            || (s.phase.Collecting? && a.Go? && !(HasPlace(cfg, asked, batch) && Early(cfg, since, s.now)))
            || (s.phase.Waiting? && (a.Timeout? || a.Close?))
            || HeadIsHeld(cfg, s, a, asked))
      && (Closes(s, t) ==> t.phase == Starting(batch))
      && (Open(s.phase) ==> t.hold == if HeadIsHeld(cfg, s, a, asked) then Some(s.queue[0]) else s.hold)
  {
    var start := Initial(now);
    var s, asked, since := Run(cfg, start, actions), Requests(cfg, start, actions), OpenedAt(cfg, start, actions);
    KnownAlong(cfg, now, actions);
    StepEntersWait(cfg, s, a, asked, since);
    StepJoins(cfg, s, a, asked, since);
    StepCloses(cfg, s, a, asked, since);
  }

  /** How many envelopes have joined the latest batch when its delay was already over. */
  function LateJoins(cfg: Config, s: State, actions: seq<Action>): nat
    requires WellFormed(s)
    decreases |actions|
  {
    if actions == [] then 0
    else
      var rest, a := actions[..|actions| - 1], actions[|actions| - 1];
      var u := Run(cfg, s, rest);
      if a.Go? && u.phase.Opening? then 0
      else
        LateJoins(cfg, s, rest)
        + if Joins(u, Step(cfg, u, a)) && !Early(cfg, OpenedAt(cfg, s, rest), u.now) then 1 else 0
  }

  /** After a late one has joined, the delay is over and the coroutine does not wait again. */
  predicate LateAtMostOnce(cfg: Config, since: Option<real>, s: State, late: nat) {
    late <= 1 && (late == 1 && Open(s.phase) ==> s.phase.Collecting? && !Early(cfg, since, s.now))
  }

  lemma StepJoinsLate(cfg: Config, s: State, a: Action, asked: seq<Envelope>, since: Option<real>, late: nat)
    requires WellFormed(s) && Known(cfg, s, asked, since) && LateAtMostOnce(cfg, since, s, late)
    requires !(a.Go? && s.phase.Opening?)
    ensures
      var t := Step(cfg, s, a);
      LateAtMostOnce(cfg, since, t, late + if Joins(s, t) && !Early(cfg, since, s.now) then 1 else 0)
  {
    StepEntersWait(cfg, s, a, asked, since);
    StepJoins(cfg, s, a, asked, since);
    StepStaysOpen(cfg, s, a);
  }

  lemma StepStaysOpen(cfg: Config, s: State, a: Action)
    requires WellFormed(s) && !(a.Go? && s.phase.Opening?)
    ensures
      var t := Step(cfg, s, a);
      && t.now >= s.now
      && (Open(t.phase) ==> Open(s.phase))
      && (t.phase.Waiting? ==> s.phase.Waiting? || s.phase.Collecting?)
      && (s.phase.Waiting? && a.Go? && t.phase.Waiting? ==> s.queue == [])
  {}

  lemma {:induction false} RunJoinsLate(cfg: Config, now: real, actions: seq<Action>)
    ensures
      var start := Initial(now);
      LateAtMostOnce(cfg, OpenedAt(cfg, start, actions), Run(cfg, start, actions), LateJoins(cfg, start, actions))
    decreases |actions|
  {
    if actions != [] {
      var start, rest, a := Initial(now), actions[..|actions| - 1], actions[|actions| - 1];
      var u := Run(cfg, start, rest);
      RunJoinsLate(cfg, now, rest);
      KnownAlong(cfg, now, rest);
      if !(a.Go? && u.phase.Opening?) {
        StepJoinsLate(cfg, u, a, Requests(cfg, start, rest), OpenedAt(cfg, start, rest), LateJoins(cfg, start, rest));
      }
    }
  }

  /** In every run at most one envelope joins a batch after its delay is over. */
  lemma {:induction false} LateJoinsAreFew(cfg: Config, now: real, actions: seq<Action>)
    ensures LateJoins(cfg, Initial(now), actions) <= 1
  {
    RunJoinsLate(cfg, now, actions);
  }
}
