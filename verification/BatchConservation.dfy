/**
 Conservation and order over whole runs of the batcher: no envelope is lost, duplicated or
 overtaken, whatever the interleaving of admissions, cancellations, expiries and shutdown.
 */
module BatchConservation {
  import opened Lists
  import opened BatchMachine

  /** Envelopes that have not yet been part of a submitted batch. */
  function Unsubmitted(s: State): seq<nat> {
    if s.phase.Executing? || s.phase.Failing? || s.phase.Scattering? || s.phase.Stopped? then Upcoming(s)
    else Custody(s)
  }

  /** Everything that came back from the executor, then everything still in custody. */
  function Line(s: State): seq<nat> {
    s.history.finished + Custody(s)
  }

  /** The hold slot is empty wherever the coroutine may fill it. */
  predicate SlotFree(s: State) {
    s.hold.Some? ==> !s.phase.Opening? && !s.phase.Collecting? && !s.phase.Waiting?
  }

  /** The batch that the executor has received and that has not come back yet. */
  function AtExecutor(p: Phase): seq<nat> {
    if p.Executing? || p.Failing? || p.Scattering? || p.Stopped? then InHand(p) else []
  }

  ghost predicate Conserved(s: State) {
    && SlotFree(s)
    && Increasing(Line(s))
    && Partitions(Line(s), s.history.dropped, |s.admitted|)
    && SubmittedAccounted(s)
    && Settled(s, s.history.finished)
    && Settled(s, s.history.dropped)
  }

  /** Every listed envelope's future is done. */
  predicate Settled(s: State, xs: seq<nat>) {
    forall k :: 0 <= k < |xs| ==> xs[k] < |s.futures| && s.futures[xs[k]] != Pending
  }

  /** The ways a step may change the line and the dropped tickets. */
  ghost predicate Flows(s: State, t: State) {
    || Keeps(s, t)
    || Admits(s, t)
    || exists before, i, after :: Drops(s, t, before, i, after)
  }

  ghost predicate Keeps(s: State, t: State) {
    Line(t) == Line(s) && t.history.dropped == s.history.dropped && |t.admitted| == |s.admitted|
  }

  ghost predicate Admits(s: State, t: State) {
    && Line(t) == Line(s) + [|s.admitted|]
    && t.history.dropped == s.history.dropped
    && |t.admitted| == |s.admitted| + 1
  }

  ghost predicate Drops(s: State, t: State, before: seq<nat>, i: nat, after: seq<nat>) {
    && Line(s) == before + [i] + after
    && Line(t) == before + after
    && t.history.dropped == s.history.dropped + [i]
    && |t.admitted| == |s.admitted|
    && i < |t.futures|
    && t.futures[i] != Pending
  }

  // ----- regrouping of concatenations -----

  lemma MoveBack(done: seq<nat>, i: nat, hand: seq<nat>, rest: seq<nat>)
    ensures done + [i] + (hand + rest) == done + ([i] + hand + rest)
  {}

  lemma MoveIn(done: seq<nat>, hand: seq<nat>, i: nat, rest: seq<nat>)
    ensures done + (hand + [i] + rest) == done + (hand + ([i] + rest))
  {}

  lemma TakeOut(done: seq<nat>, left: seq<nat>, i: nat, right: seq<nat>)
    ensures done + (left + ([i] + right)) == done + left + [i] + right
    ensures done + (left + right) == done + left + right
  {}

  lemma TakeFirstFlows(s: State, u: State, i: nat)
    requires WellFormed(s) && s.phase.Fetching?
    requires i < |s.admitted|
    requires u == s.(hold := u.hold, queue := u.queue)
    requires Upcoming(s) == [i] + Upcoming(u)
    ensures Flows(s, TakeFirst(u, i))
  {
    var t := TakeFirst(u, i);
    assert Upcoming(t) == Upcoming(u);
    var before, after := s.history.finished, Upcoming(u);
    TakeOut(before, [], i, after);
    assert [] + ([i] + after) == [i] + after;
    if !Live(u, i) {
      assert [] + after == after;
      assert before + [] == before;
      assert Drops(s, t, before, i, after);
    } else {
      assert Keeps(s, t);
    }
  }

  lemma FetchingFlows(s: State)
    requires WellFormed(s) && s.phase.Fetching?
    ensures Flows(s, GoFetching(s))
  {
    if s.stopping {
      assert Keeps(s, GoFetching(s));
    } else if s.hold.Some? {
      TakeFirstFlows(s, s.(hold := None), s.hold.value);
    } else if s.queue != [] {
      TakeFirstFlows(s, s.(queue := s.queue[1..]), s.queue[0]);
    } else {
      assert Keeps(s, GoFetching(s));
    }
  }

  lemma WaitingFlows(cfg: Config, s: State)
    requires WellFormed(s) && SlotFree(s) && s.phase.Waiting?
    ensures Flows(s, GoWaiting(cfg, s))
  {
    var t := GoWaiting(cfg, s);
    if s.queue == [] {
      assert Keeps(s, t);
    } else {
      var done, batch, i, rest := s.history.finished, s.phase.batch, s.queue[0], s.queue[1..];
      assert s.queue == [i] + rest;
      if !Live(s, i) {
        TakeOut(done, batch, i, rest);
        assert Drops(s, t, done + batch, i, rest);
      } else if t.hold.Some? {
        assert Keeps(s, t);
      } else {
        MoveIn(done, batch, i, rest);
        assert Keeps(s, t);
      }
    }
  }

  lemma PreparingDrops(s: State)
    requires WellFormed(s) && s.phase.Preparing? && s.phase.todo != [] && !Live(s, s.phase.todo[0])
    ensures Flows(s, GoPreparing(s))
  {
    var done, todo, valid, rest := s.history.finished, s.phase.todo, s.phase.valid, Upcoming(s);
    assert todo == [todo[0]] + todo[1..];
    PreparingDrop(done, valid, todo[0], todo[1..], rest);
    assert Drops(s, GoPreparing(s), done + valid, todo[0], todo[1..] + rest);
  }

  lemma PreparingFlows(s: State)
    requires WellFormed(s) && s.phase.Preparing?
    ensures Flows(s, GoPreparing(s))
  {
    var todo, valid := s.phase.todo, s.phase.valid;
    if todo == [] {
      assert valid + todo == valid;
      assert Keeps(s, GoPreparing(s));
    } else if !Live(s, todo[0]) {
      PreparingDrops(s);
    } else {
      assert valid + [todo[0]] + todo[1..] == valid + todo;
      assert Keeps(s, GoPreparing(s));
    }
  }

  lemma PreparingDrop(done: seq<nat>, valid: seq<nat>, i: nat, todo: seq<nat>, rest: seq<nat>)
    ensures done + (valid + ([i] + todo) + rest) == done + valid + [i] + (todo + rest)
    ensures done + (valid + todo + rest) == done + valid + (todo + rest)
  {}

  lemma FailingKeeps(s: State)
    requires WellFormed(s) && s.phase.Failing?
    ensures Keeps(s, GoFailing(s))
  {
    var todo := s.phase.todo;
    if todo != [] {
      assert todo == [todo[0]] + todo[1..];
      MoveBack(s.history.finished, todo[0], todo[1..], Upcoming(s));
      assert Upcoming(GoFailing(s)) == Upcoming(s);
    }
  }

  lemma ScatteringKeeps(s: State)
    requires WellFormed(s) && s.phase.Scattering?
    ensures Keeps(s, GoScattering(s))
  {
    var todo := s.phase.todo;
    if todo != [] {
      assert todo == [todo[0]] + todo[1..];
      MoveBack(s.history.finished, todo[0], todo[1..], Upcoming(s));
      assert Upcoming(GoScattering(s)) == Upcoming(s);
    }
  }

  lemma GoFlows(cfg: Config, s: State)
    requires WellFormed(s) && SlotFree(s)
    ensures Flows(s, GoStep(cfg, s))
  {
    match s.phase
    case Fetching => FetchingFlows(s);
    case Waiting(_, _, _) => WaitingFlows(cfg, s);
    case Preparing(_, _, _, _, _) => PreparingFlows(s);
    case Failing(_) => FailingKeeps(s);
    case Scattering(_, _, _, _, _) => ScatteringKeeps(s);
    case _ => OthersKeep(cfg, s);
  }

  lemma OthersKeep(cfg: Config, s: State)
    requires WellFormed(s)
    requires !s.phase.Fetching? && !s.phase.Waiting? && !s.phase.Preparing? && !s.phase.Failing? && !s.phase.Scattering?
    ensures Keeps(s, GoStep(cfg, s))
  {
    if s.phase.Starting? { assert [] + s.phase.batch == s.phase.batch; }
  }

  lemma StepFlows(cfg: Config, s: State, a: Action)
    requires WellFormed(s) && SlotFree(s)
    ensures Flows(s, Step(cfg, s, a))
  {
    var t := Step(cfg, s, a);
    if a.Go? {
      GoFlows(cfg, s);
    } else if a.Enqueue? && Admit(cfg, s) == Accepted {
      assert Admits(s, t);
    } else {
      assert Keeps(s, t);
    }
  }

  // ----- every step preserves the invariant -----

  lemma FuturesAreFinal(cfg: Config, s: State, a: Action)
    requires WellFormed(s)
    ensures var t := Step(cfg, s, a);
            && s.admitted <= t.admitted
            && forall i :: 0 <= i < |s.futures| && s.futures[i] != Pending ==> t.futures[i] == s.futures[i]
  {
    if a.Go? { TurnsAreFinal(cfg, s); }
  }

  lemma TurnsAreFinal(cfg: Config, s: State)
    requires WellFormed(s)
    ensures var t := GoStep(cfg, s);
            && t.admitted == s.admitted && |t.futures| == |s.futures|
            && forall i :: 0 <= i < |s.futures| && s.futures[i] != Pending ==> t.futures[i] == s.futures[i]
  {}

  ghost predicate Partitions(line: seq<nat>, dropped: seq<nat>, n: nat) {
    multiset(line) + multiset(dropped) == multiset(Range(0, n))
  }

  lemma FlowKeepsOrder(s: State, t: State)
    requires Flows(s, t)
    requires Increasing(Line(s)) && Partitions(Line(s), s.history.dropped, |s.admitted|)
    ensures Increasing(Line(t)) && Partitions(Line(t), t.history.dropped, |t.admitted|)
  {
    if Admits(s, t) {
      AdmissionKeepsOrder(Line(s), s.history.dropped, |s.admitted|);
    } else if !Keeps(s, t) {
      var before, i, after :| Drops(s, t, before, i, after);
      RemovalKeepsIncreasing(before, i, after);
      RemovalKeepsPartition(before, i, after, s.history.dropped, |s.admitted|);
    }
  }

  lemma AdmissionKeepsOrder(line: seq<nat>, dropped: seq<nat>, n: nat)
    requires Increasing(line) && Partitions(line, dropped, n)
    ensures Increasing(line + [n]) && Partitions(line + [n], dropped, n + 1)
  {
    assert Range(0, n + 1) == Range(0, n) + [n];
    forall k | 0 <= k < |line|
      ensures line[k] < n
    {
      assert line[k] in multiset(Range(0, n));
    }
  }

  lemma RemovalKeepsPartition(before: seq<nat>, i: nat, after: seq<nat>, dropped: seq<nat>, n: nat)
    requires Partitions(before + [i] + after, dropped, n)
    ensures Partitions(before + after, dropped + [i], n)
  {
    assert multiset(before + [i] + after) == multiset(before + after) + multiset([i]);
  }

  lemma RemovalKeepsIncreasing(before: seq<nat>, i: nat, after: seq<nat>)
    requires Increasing(before + [i] + after)
    ensures Increasing(before + after)
  {
    var xs, ys := before + [i] + after, before + after;
    forall j, k | 0 <= j < k < |ys|
      ensures ys[j] < ys[k]
    {
      assert ys[j] == xs[if j < |before| then j else j + 1];
      assert ys[k] == xs[if k < |before| then k else k + 1];
    }
  }

  lemma HandIsElsewhere(done: seq<nat>, hand: seq<nat>, rest: seq<nat>, i: nat)
    requires Increasing(done + (hand + rest)) && i in hand
    ensures i !in rest
  {
    var line := done + (hand + rest);
    var j :| 0 <= j < |hand| && hand[j] == i;
    forall k | 0 <= k < |rest|
      ensures rest[k] != i
    {
      assert line[|done| + j] == i && line[|done| + |hand| + k] == rest[k];
    }
  }

  lemma StepKeepsSlotFree(cfg: Config, s: State, a: Action)
    requires WellFormed(s) && SlotFree(s)
    ensures SlotFree(Step(cfg, s, a))
  {}

  ghost predicate SubmittedAccounted(s: State) {
    Flatten(s.history.submitted) == s.history.finished + AtExecutor(s.phase)
  }

  /** What one step of preparing may submit. */
  lemma PreparingSubmits(s: State)
    requires WellFormed(s) && s.phase.Preparing?
    ensures
      var t := GoPreparing(s);
      && t.history.finished == s.history.finished
      && (|| (t.history.submitted == s.history.submitted && AtExecutor(t.phase) == [])
          || (t.history.submitted == s.history.submitted + [s.phase.valid] && AtExecutor(t.phase) == s.phase.valid
              && t.phase.Executing?))
  {}

  lemma SubmittingAccounted(s: State, t: State, batch: seq<nat>)
    requires SubmittedAccounted(s) && AtExecutor(s.phase) == []
    requires t.history.finished == s.history.finished
    requires t.history.submitted == s.history.submitted + [batch] && AtExecutor(t.phase) == batch
    ensures SubmittedAccounted(t)
  {
    FlattenSnoc(s.history.submitted, batch);
    assert s.history.finished + [] == s.history.finished;
  }

  lemma SubmissionAccounted(s: State)
    requires WellFormed(s) && SubmittedAccounted(s)
    requires s.phase.Preparing?
    ensures SubmittedAccounted(GoPreparing(s))
  {
    var t := GoPreparing(s);
    PreparingSubmits(s);
    if t.phase.Executing? { SubmittingAccounted(s, t, s.phase.valid); }
  }

  lemma ReturnAccounted(s: State, t: State)
    requires SubmittedAccounted(s)
    requires s.phase.Failing? || s.phase.Scattering?
    requires s.phase.todo != []
    requires t.history.submitted == s.history.submitted
    requires t.history.finished == s.history.finished + [s.phase.todo[0]]
    requires AtExecutor(t.phase) == s.phase.todo[1..]
    ensures SubmittedAccounted(t)
  {
    var i, rest := s.phase.todo[0], s.phase.todo[1..];
    assert s.phase.todo == [i] + rest;
    assert s.history.finished + ([i] + rest) == s.history.finished + [i] + rest;
  }

  lemma OtherPhasesSubmitNothing(cfg: Config, s: State)
    requires WellFormed(s) && !s.phase.Preparing? && !s.phase.Failing? && !s.phase.Scattering?
    ensures
      var t := GoStep(cfg, s);
      && t.history.submitted == s.history.submitted && t.history.finished == s.history.finished
      && AtExecutor(t.phase) == AtExecutor(s.phase)
  {}

  lemma GoKeepsSubmitted(cfg: Config, s: State)
    requires WellFormed(s) && SubmittedAccounted(s)
    ensures SubmittedAccounted(GoStep(cfg, s))
  {
    match s.phase
    case Preparing(_, _, _, _, _) => SubmissionAccounted(s);
    case Failing(todo) => if todo != [] { ReturnAccounted(s, GoFailing(s)); }
    case Scattering(todo, _, _, _, _) => if todo != [] { ReturnAccounted(s, GoScattering(s)); }
    case _ => OtherPhasesSubmitNothing(cfg, s);
  }

  lemma StepKeepsSubmitted(cfg: Config, s: State, a: Action)
    requires WellFormed(s) && SubmittedAccounted(s)
    ensures SubmittedAccounted(Step(cfg, s, a))
  {
    if a.Go? {
      GoKeepsSubmitted(cfg, s);
    } else {
      OtherActionsSubmitNothing(cfg, s, a);
    }
  }

  lemma OtherActionsSubmitNothing(cfg: Config, s: State, a: Action)
    requires WellFormed(s) && !a.Go?
    ensures
      var t := Step(cfg, s, a);
      && t.history.submitted == s.history.submitted && t.history.finished == s.history.finished
      && AtExecutor(t.phase) == AtExecutor(s.phase)
  {}

  /** ys is xs, or xs and one envelope whose future is done. */
  ghost predicate GrowsSettled(t: State, xs: seq<nat>, ys: seq<nat>) {
    || ys == xs
    || exists i :: AppendsSettled(t, xs, i, ys)
  }

  ghost predicate AppendsSettled(t: State, xs: seq<nat>, i: nat, ys: seq<nat>) {
    ys == xs + [i] && i < |t.futures| && t.futures[i] != Pending
  }

  /** The envelope that a step may drop. */
  function Examined(s: State): nat {
    match s.phase
    case Fetching => if Upcoming(s) != [] then Upcoming(s)[0] else 0
    case Waiting(_, _, _) => if s.queue != [] then s.queue[0] else 0
    case Preparing(todo, _, _, _, _) => if todo != [] then todo[0] else 0
    case _ => 0
  }

  lemma GoDropsSettled(cfg: Config, s: State)
    requires WellFormed(s)
    ensures var t := GoStep(cfg, s); GrowsSettled(t, s.history.dropped, t.history.dropped)
  {
    var t := GoStep(cfg, s);
    assert t.history.dropped == s.history.dropped || AppendsSettled(t, s.history.dropped, Examined(s), t.history.dropped);
  }

  lemma GoFinishesSettled(cfg: Config, s: State)
    requires WellFormed(s)
    ensures var t := GoStep(cfg, s); GrowsSettled(t, s.history.finished, t.history.finished)
  {
    var t := GoStep(cfg, s);
    if (s.phase.Failing? || s.phase.Scattering?) && s.phase.todo != [] {
      assert AppendsSettled(t, s.history.finished, s.phase.todo[0], t.history.finished);
    } else {
      assert t.history.finished == s.history.finished;
    }
  }

  lemma SettledGrows(s: State, t: State, xs: seq<nat>, ys: seq<nat>)
    requires |s.futures| <= |t.futures|
    requires forall i :: 0 <= i < |s.futures| && s.futures[i] != Pending ==> t.futures[i] == s.futures[i]
    requires Settled(s, xs) && GrowsSettled(t, xs, ys)
    ensures Settled(t, ys)
  {
    forall k | 0 <= k < |ys|
      ensures ys[k] < |t.futures| && t.futures[ys[k]] != Pending
    {
      if k < |xs| { assert ys[k] == xs[k]; }
    }
  }

  lemma StepKeepsSettled(cfg: Config, s: State, a: Action)
    requires WellFormed(s)
    requires Settled(s, s.history.finished) && Settled(s, s.history.dropped)
    ensures var t := Step(cfg, s, a); Settled(t, t.history.finished) && Settled(t, t.history.dropped)
  {
    var t := Step(cfg, s, a);
    FuturesAreFinal(cfg, s, a);
    if a.Go? {
      GoDropsSettled(cfg, s);
      GoFinishesSettled(cfg, s);
    }
    SettledGrows(s, t, s.history.finished, t.history.finished);
    SettledGrows(s, t, s.history.dropped, t.history.dropped);
  }

  lemma StepConserves(cfg: Config, s: State, a: Action)
    requires WellFormed(s) && Conserved(s)
    ensures Conserved(Step(cfg, s, a))
  {
    StepFlows(cfg, s, a);
    FlowKeepsOrder(s, Step(cfg, s, a));
    StepKeepsSlotFree(cfg, s, a);
    StepKeepsSubmitted(cfg, s, a);
    StepKeepsSettled(cfg, s, a);
  }

  lemma {:induction false} RunConserves(cfg: Config, s: State, actions: seq<Action>)
    requires WellFormed(s) && Conserved(s)
    ensures Conserved(Run(cfg, s, actions))
    decreases |actions|
  {
    if actions != [] {
      var rest := actions[..|actions| - 1];
      RunConserves(cfg, s, rest);
      StepConserves(cfg, Run(cfg, s, rest), actions[|actions| - 1]);
    }
  }

  // ----- why envelopes leave -----

  /** Neither answered nor refused. */
  predicate Unanswered(f: Future) {
    f.Pending? || f.Cancelled?
  }

  /** Found done or expired before execution. */
  predicate Dismissed(f: Future) {
    f.Cancelled? || f == Error(ExpiredInQueue) || f == Error(ExpiredBeforeExecution)
  }

  /** Nobody still in custody has been answered, and whoever was dropped was cancelled or had expired. */
  ghost predicate Fated(s: State) {
    && (forall i :: i in Custody(s) ==> i < |s.futures| && Unanswered(s.futures[i]))
    && (forall i :: i in s.history.dropped ==> i < |s.futures| && Dismissed(s.futures[i]))
  }

  /** What one turn may drop: the envelope it examines, and for what reason. */
  lemma TurnDismisses(cfg: Config, s: State)
    requires WellFormed(s)
    ensures
      var t, i := GoStep(cfg, s), Examined(s);
      || t.history.dropped == s.history.dropped
      || (&& i in Custody(s) && i < |s.futures| && i < |t.futures| && t.history.dropped == s.history.dropped + [i]
          && (Dismissed(t.futures[i]) || (s.futures[i] != Pending && t.futures[i] == s.futures[i])))
  {}

  /** Whoever a turn answers or refuses is dropped or finished by it. */
  lemma TurnSettlesOnLeaving(cfg: Config, s: State, i: nat)
    requires WellFormed(s) && i < |s.futures|
    ensures
      var t := GoStep(cfg, s);
      t.futures[i] == s.futures[i] || i in t.history.dropped || i in t.history.finished
  {
    var t := GoStep(cfg, s);
    assert t.history.dropped != [] ==>
        t.history.dropped[|t.history.dropped| - 1] in t.history.dropped;
    assert t.history.finished != [] ==>
        t.history.finished[|t.history.finished| - 1] in t.history.finished;
  }

  lemma RecordsGrow(cfg: Config, s: State, a: Action)
    requires WellFormed(s)
    ensures var t := Step(cfg, s, a); s.history.dropped <= t.history.dropped && s.history.finished <= t.history.finished
  {
    if a.Go? {
      GoDropsSettled(cfg, s);
      GoFinishesSettled(cfg, s);
    } else {
      ActsDropNothing(cfg, s, a);
    }
  }

  lemma DroppedIsDismissed(cfg: Config, s: State, i: nat)
    requires WellFormed(s) && Fated(s)
    ensures
      var t := GoStep(cfg, s);
      i in t.history.dropped ==> i < |t.futures| && Dismissed(t.futures[i])
  {
    TurnDismisses(cfg, s);
    TurnsAreFinal(cfg, s);
  }

  lemma ActsDropNothing(cfg: Config, s: State, a: Action)
    requires WellFormed(s) && !a.Go?
    ensures var t := Step(cfg, s, a); t.history.dropped == s.history.dropped && t.history.finished == s.history.finished
    ensures
      var t := Step(cfg, s, a);
      && |s.futures| <= |t.futures|
      && forall i :: 0 <= i < |t.futures| ==> Unanswered(t.futures[i]) || (i < |s.futures| && t.futures[i] == s.futures[i])
  {}

  lemma InCustodyBefore(cfg: Config, s: State, a: Action, i: nat)
    requires WellFormed(s) && Conserved(s) && Conserved(Step(cfg, s, a))
    requires i in Custody(Step(cfg, s, a)) && i < |s.admitted|
    ensures i in Custody(s)
  {
    var t := Step(cfg, s, a);
    RecordsGrow(cfg, s, a);
    PartitionMembers(Line(t), t.history.dropped, |t.admitted|, i);
    PartitionMembers(Line(s), s.history.dropped, |s.admitted|, i);
    if i in s.history.finished { CustodyIsElsewhere(t, i); }
  }

  lemma CustodyIsElsewhere(s: State, i: nat)
    requires Increasing(Line(s)) && i in s.history.finished
    ensures i !in Custody(s)
  {
    assert [] + (s.history.finished + Custody(s)) == Line(s);
    HandIsElsewhere([], s.history.finished, Custody(s), i);
  }

  lemma CustodyIsUnanswered(cfg: Config, s: State, a: Action, i: nat)
    requires WellFormed(s) && Conserved(s) && Fated(s) && Conserved(Step(cfg, s, a))
    requires i in Custody(Step(cfg, s, a))
    ensures var t := Step(cfg, s, a); i < |t.futures| && Unanswered(t.futures[i])
  {
    var t := Step(cfg, s, a);
    PartitionMembers(Line(t), t.history.dropped, |t.admitted|, i);
    if i < |s.admitted| { InCustodyBefore(cfg, s, a, i); }
    if a.Go? {
      TurnsAreFinal(cfg, s);
      TurnSettlesOnLeaving(cfg, s, i);
      if i in t.history.finished { CustodyIsElsewhere(t, i); }
    } else {
      ActsDropNothing(cfg, s, a);
    }
  }

  lemma StepFates(cfg: Config, s: State, a: Action)
    requires WellFormed(s) && Conserved(s) && Fated(s) && Conserved(Step(cfg, s, a))
    ensures Fated(Step(cfg, s, a))
  {
    var t := Step(cfg, s, a);
    forall i | i in Custody(t)
      ensures i < |t.futures| && Unanswered(t.futures[i])
    {
      CustodyIsUnanswered(cfg, s, a, i);
    }
    forall i | i in t.history.dropped
      ensures i < |t.futures| && Dismissed(t.futures[i])
    {
      if a.Go? {
        DroppedIsDismissed(cfg, s, i);
      } else {
        ActsDropNothing(cfg, s, a);
        FuturesAreFinal(cfg, s, a);
      }
    }
  }

  lemma {:induction false} RunFates(cfg: Config, now: real, actions: seq<Action>)
    ensures Fated(Run(cfg, Initial(now), actions))
    decreases |actions|
  {
    if actions != [] {
      var rest := actions[..|actions| - 1];
      RunFates(cfg, now, rest);
      RunConserves(cfg, Initial(now), rest);
      StepConserves(cfg, Run(cfg, Initial(now), rest), actions[|actions| - 1]);
      StepFates(cfg, Run(cfg, Initial(now), rest), actions[|actions| - 1]);
    }
  }

  // ----- main results -----

  /**
   In every reachable state each accepted envelope is in exactly one place: in hand, in the hold
   slot, in the queue, dropped, or finished. In the first three it has not been answered, dropped
   ones were cancelled or had expired, and finished ones are done.
   */
  lemma {:induction false} NothingIsLost(cfg: Config, now: real, actions: seq<Action>)
    ensures
      var s := Run(cfg, Initial(now), actions);
      && multiset(InHand(s.phase)) + multiset(Upcoming(s)) + multiset(s.history.dropped) + multiset(s.history.finished)
         == multiset(Range(0, |s.admitted|))
      && Settled(s, s.history.finished)
      && (forall i :: i in Custody(s) ==> i < |s.futures| && Unanswered(s.futures[i]))
      && (forall i :: i in s.history.dropped ==> i < |s.futures| && Dismissed(s.futures[i]))
  {
    var s := Run(cfg, Initial(now), actions);
    RunConserves(cfg, Initial(now), actions);
    RunFates(cfg, now, actions);
    assert multiset(Line(s)) == multiset(s.history.finished) + multiset(Custody(s));
  }

  /**
   First in, first out: the submitted batches, read one after the other and followed by what has
   not been submitted yet, are the admission sequence minus exactly the dropped envelopes.
   */
  lemma {:induction false} FirstInFirstOut(cfg: Config, now: real, actions: seq<Action>)
    ensures
      var s := Run(cfg, Initial(now), actions);
      Flatten(s.history.submitted) + Unsubmitted(s)
      == Filter(i => i !in s.history.dropped, Range(0, |s.admitted|))
  {
    var s := Run(cfg, Initial(now), actions);
    RunConserves(cfg, Initial(now), actions);
    SubmittedThenWaiting(s);
    LineIsAdmissions(Line(s), s.history.dropped, |s.admitted|);
  }

  /** An increasing line that together with the dropped tickets makes up all tickets is determined by them. */
  lemma LineIsAdmissions(line: seq<nat>, dropped: seq<nat>, n: nat)
    requires Increasing(line) && Partitions(line, dropped, n)
    ensures line == Filter(i => i !in dropped, Range(0, n))
  {
    var p, all := (i: nat) => i !in dropped, Range(0, n);
    FilterIncreasing(p, all);
    FilterMembers(p, all);
    forall i: nat
      ensures i in line <==> i in Filter(p, all)
    {
      PartitionMembers(line, dropped, n, i);
      InRange(n, i);
    }
    IncreasingUnique(line, Filter(p, all));
  }

  lemma InRange(n: nat, i: nat)
    ensures i in Range(0, n) <==> i < n
  {
    if i < n { assert Range(0, n)[i] == i; }
  }

  lemma PartitionMembers(line: seq<nat>, dropped: seq<nat>, n: nat, i: nat)
    requires Partitions(line, dropped, n)
    ensures i in line <==> i < n && i !in dropped
  {
    assert (multiset(line) + multiset(dropped))[i] == multiset(Range(0, n))[i];
    RangeOnce(n, i);
    assert i in line <==> multiset(line)[i] > 0;
    assert i in dropped <==> multiset(dropped)[i] > 0;
  }

  lemma SubmittedThenWaiting(s: State)
    requires SubmittedAccounted(s)
    ensures Flatten(s.history.submitted) + Unsubmitted(s) == Line(s)
  {
    assert s.history.finished + AtExecutor(s.phase) + Upcoming(s)
        == s.history.finished + (AtExecutor(s.phase) + Upcoming(s));
    assert s.history.finished + [] == s.history.finished;
  }

  lemma OutOfCustodyIsDone(s: State, i: nat)
    requires WellFormed(s) && Conserved(s)
    requires i < |s.futures| && i !in Custody(s)
    ensures s.futures[i] != Pending
  {
    PartitionMembers(Line(s), s.history.dropped, |s.admitted|, i);
    if i in s.history.dropped {
      var k :| 0 <= k < |s.history.dropped| && s.history.dropped[k] == i;
    } else {
      assert i in s.history.finished;
      var k :| 0 <= k < |s.history.finished| && s.history.finished[k] == i;
    }
  }

  lemma PendingInCustody(s: State, i: nat)
    requires WellFormed(s) && Conserved(s) && i < |s.futures|
    ensures s.futures[i] == Pending ==> i in Custody(s)
  {
    if i !in Custody(s) { OutOfCustodyIsDone(s, i); }
  }

  lemma {:induction false} RangeOnce(n: nat, i: nat)
    ensures multiset(Range(0, n))[i] == if i < n then 1 else 0
  {
    if n > 0 {
      RangeOnce(n - 1, i);
      assert Range(0, n) == Range(0, n - 1) + [n - 1];
    }
  }

  // ----- no work for requests that are over -----

  lemma TimeFlows(cfg: Config, s: State, a: Action)
    requires WellFormed(s)
    ensures Step(cfg, s, a).now >= s.now
  {}

  /** Done, or past its deadline. */
  predicate Over(s: State, i: nat)
    requires WellFormed(s) && i < |s.futures|
  {
    s.futures[i] != Pending || s.now > s.admitted[i].deadline
  }

  /** Done futures stay done and deadlines stay passed. */
  lemma OverStaysOver(cfg: Config, s: State, a: Action, i: nat)
    requires WellFormed(s) && i < |s.futures| && Over(s, i)
    ensures var t := Step(cfg, s, a); i < |t.futures| && Over(t, i)
  {
    TimeFlows(cfg, s, a);
    FuturesAreFinal(cfg, s, a);
  }

  /** The envelope is in no submitted batch and has not been prepared for the next one. */
  ghost predicate Untaken(s: State, i: nat) {
    i !in Flatten(s.history.submitted) && (s.phase.Preparing? ==> i !in s.phase.valid)
  }

  lemma PreparingTakes(s: State)
    requires WellFormed(s) && s.phase.Preparing?
    ensures
      var t := GoPreparing(s);
      t.phase.Preparing? ==>
        || t.phase.valid == s.phase.valid
        || (s.phase.todo != [] && Live(s, s.phase.todo[0]) && t.phase.valid == s.phase.valid + [s.phase.todo[0]])
  {}

  lemma NotInFlattened(batches: seq<seq<nat>>, batch: seq<nat>, i: nat)
    requires i !in Flatten(batches) && i !in batch
    ensures i !in Flatten(batches + [batch])
  {
    FlattenSnoc(batches, batch);
  }

  lemma PreparingLeavesOut(s: State, i: nat)
    requires WellFormed(s) && s.phase.Preparing? && i < |s.futures| && Over(s, i) && Untaken(s, i)
    ensures Untaken(GoPreparing(s), i)
  {
    PreparingTakes(s);
    PreparingSubmits(s);
    NotInFlattened(s.history.submitted, s.phase.valid, i);
  }

  lemma OthersTakeNothing(cfg: Config, s: State, a: Action)
    requires WellFormed(s) && !(a.Go? && s.phase.Preparing?)
    ensures
      var t := Step(cfg, s, a);
      && t.history.submitted == s.history.submitted
      && (t.phase.Preparing? ==> t.phase == s.phase || t.phase.valid == [])
  {}

  lemma StepLeavesOut(cfg: Config, s: State, a: Action, i: nat)
    requires WellFormed(s) && i < |s.futures| && Over(s, i) && Untaken(s, i)
    ensures Untaken(Step(cfg, s, a), i)
  {
    if a.Go? && s.phase.Preparing? {
      PreparingLeavesOut(s, i);
    } else {
      OthersTakeNothing(cfg, s, a);
    }
  }

  /**
   A request that is cancelled, answered or past its deadline before it is prepared never reaches
   the executor, whatever happens afterwards.
   */
  lemma {:induction false} NoWorkForTheDone(cfg: Config, s: State, actions: seq<Action>, i: nat)
    requires WellFormed(s) && i < |s.futures| && Over(s, i) && Untaken(s, i)
    ensures
      var t := Run(cfg, s, actions);
      i < |t.futures| && Over(t, i) && Untaken(t, i)
    decreases |actions|
  {
    if actions != [] {
      var rest, a := actions[..|actions| - 1], actions[|actions| - 1];
      NoWorkForTheDone(cfg, s, rest, i);
      StepLeavesOut(cfg, Run(cfg, s, rest), a, i);
      OverStaysOver(cfg, Run(cfg, s, rest), a, i);
    }
  }
}
