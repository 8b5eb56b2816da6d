/**
 Where results come from: each is the request's own part of what the executor answered to the batch
 the request was in, whatever that answer was, with the times of that batch.
 */
module BatchResults {
  import opened Lists
  import opened BatchMachine
  import opened BatchRequests
  import opened BatchSettlement
  import opened BatchCapacity
  import opened BatchTransparency

  // ----- the start of processing -----

  /** The clock when processing of the latest batch started. */
  function StartedAt(cfg: Config, s: State, actions: seq<Action>): Option<real>
    requires WellFormed(s)
    decreases |actions|
  {
    if actions == [] then None
    else
      var rest := actions[..|actions| - 1];
      var u := Run(cfg, s, rest);
      if actions[|actions| - 1].Go? && u.phase.Starting? then Some(u.now) else StartedAt(cfg, s, rest)
  }

  /** From preparing to the executor the coroutine remembers when processing started. */
  predicate StartKept(since: Option<real>, p: Phase) {
    p.Preparing? || p.Executing? ==> since == Some(p.start)
  }

  lemma StepKeepsStart(cfg: Config, s: State, a: Action, since: Option<real>)
    requires WellFormed(s) && StartKept(since, s.phase)
    ensures StartKept(if a.Go? && s.phase.Starting? then Some(s.now) else since, Step(cfg, s, a).phase)
  {
    if a.Go? && s.phase.Preparing? { PreparingKeepsStart(s); }
  }

  lemma PreparingKeepsStart(s: State)
    requires WellFormed(s) && s.phase.Preparing?
    ensures var p := GoPreparing(s).phase; p.Fetching? || ((p.Preparing? || p.Executing?) && p.start == s.phase.start)
  {}

  lemma {:induction false} RunKeepsStart(cfg: Config, now: real, actions: seq<Action>)
    ensures StartKept(StartedAt(cfg, Initial(now), actions), Run(cfg, Initial(now), actions).phase)
    decreases |actions|
  {
    if actions != [] {
      var rest := actions[..|actions| - 1];
      RunKeepsStart(cfg, now, rest);
      StepKeepsStart(cfg, Run(cfg, Initial(now), rest), actions[|actions| - 1], StartedAt(cfg, Initial(now), rest));
    }
  }

  // ----- deliveries -----

  /** Request i is in the batch, and its inputs stand from place `from` on among the inputs of the batch. */
  ghost predicate Places(admitted: seq<Envelope>, batch: seq<nat>, i: nat, from: nat) {
    exists j: nat :: j < |batch| && batch[j] == i && from == Items(admitted, batch[..j])
  }

  /** The executor's answer to the batch that request i was in, and when that batch started and came back. */
  datatype Delivery = Delivery(from: nat, output: Output, start: real, end: real)

  /** The k-th action was the executor making this delivery for a batch in which request i has its place. */
  ghost predicate DeliveredAt(cfg: Config, s: State, actions: seq<Action>, k: nat, i: nat, d: Delivery)
    requires WellFormed(s)
  {
    && k < |actions| && actions[k] == Return(d.output)
    && var u := Run(cfg, s, actions[..k]);
       && u.phase.Executing? && Places(u.admitted, u.phase.valid, i, d.from)
       && u.now == d.end && StartedAt(cfg, s, actions[..k]) == Some(d.start)
  }

  lemma DeliveredEarlier(cfg: Config, s: State, actions: seq<Action>, k: nat, i: nat, d: Delivery)
    requires WellFormed(s) && actions != [] && DeliveredAt(cfg, s, actions[..|actions| - 1], k, i, d)
    ensures DeliveredAt(cfg, s, actions, k, i, d)
  {
    assert actions[..|actions| - 1][..k] == actions[..k];
  }

  lemma DeliveredNow(cfg: Config, s: State, actions: seq<Action>, i: nat, d: Delivery)
    requires WellFormed(s) && actions != [] && actions[|actions| - 1] == Return(d.output)
    requires
      var u := Run(cfg, s, actions[..|actions| - 1]);
      && u.phase.Executing? && Places(u.admitted, u.phase.valid, i, d.from)
      && u.now == d.end && StartedAt(cfg, s, actions[..|actions| - 1]) == Some(d.start)
    ensures DeliveredAt(cfg, s, actions, |actions| - 1, i, d)
  {}

  /** At most n elements of xs from place `from` on; fewer when xs ends before. */
  predicate PartFrom<T(==)>(part: seq<T>, xs: seq<T>, from: nat, n: nat) {
    && |part| == (if |xs| <= from then 0 else if |xs| <= from + n then |xs| - from else n)
    && forall k :: 0 <= k < |part| ==> part[k] == xs[from + k]
  }

  /** The result is the request's own part of the output, with the output's times and its own, in milliseconds. */
  predicate Reports(r: BatchResult, env: Envelope, d: Delivery) {
    && PartFrom(r.predictions, d.output.predictions, d.from, |env.inputs|)
    && r.preprocessMs == d.output.preprocessMs
    && r.inferenceMs == d.output.inferenceMs
    && r.postprocessMs == d.output.postprocessMs
    && r.queueMs == (d.start - env.enqueueTime) * 1000.0
    && r.workerTotalMs == (d.end - env.enqueueTime) * 1000.0
  }

  /** The result of request i reports a delivery for its own batch. */
  ghost predicate Earned(cfg: Config, s: State, actions: seq<Action>, i: nat, env: Envelope, r: BatchResult)
    requires WellFormed(s)
  {
    exists k: nat, d :: DeliveredAt(cfg, s, actions, k, i, d) && Reports(r, env, d)
  }

  lemma EarnedEarlier(cfg: Config, s: State, actions: seq<Action>, i: nat, env: Envelope, r: BatchResult)
    requires WellFormed(s) && actions != [] && Earned(cfg, s, actions[..|actions| - 1], i, env, r)
    ensures Earned(cfg, s, actions, i, env, r)
  {
    var k: nat, d :| DeliveredAt(cfg, s, actions[..|actions| - 1], k, i, d) && Reports(r, env, d);
    DeliveredEarlier(cfg, s, actions, k, i, d);
  }

  // ----- slices on their way -----

  /** Each slice that waits to be handed out has the length of its envelope's inputs and was delivered for it. */
  ghost predicate SlicesDelivered(cfg: Config, s: State, actions: seq<Action>)
    requires WellFormed(s)
  {
    var t := Run(cfg, s, actions);
    t.phase.Scattering? ==> forall j: nat :: j < |t.phase.todo| ==> SliceDelivered(cfg, s, actions, j)
  }

  ghost predicate SliceDelivered(cfg: Config, s: State, actions: seq<Action>, j: nat)
    requires WellFormed(s)
    requires Run(cfg, s, actions).phase.Scattering? && j < |Run(cfg, s, actions).phase.todo|
  {
    var t := Run(cfg, s, actions);
    var Scattering(todo, slices, output, start, end) := t.phase;
    && slices[j].to == slices[j].from + |t.admitted[todo[j]].inputs|
    && exists k: nat :: DeliveredAt(cfg, s, actions, k, todo[j], Delivery(slices[j].from, output, start, end))
  }

  lemma {:induction false} SlicePlace(admitted: seq<Envelope>, batch: seq<nat>, flat: seq<string>, slices: seq<Slice>, j: nat)
    requires Below(batch, |admitted|) && Tiles(admitted, batch, flat, slices) && j < |batch|
    ensures slices[j].from == Items(admitted, batch[..j])
    ensures slices[j].to == slices[j].from + |admitted[batch[j]].inputs|
  {
    assert Cuts(flat, slices[j], admitted[batch[j]].inputs);
    if j > 0 {
      SlicePlace(admitted, batch, flat, slices, j - 1);
      assert slices[j].from == slices[j - 1].to;
      assert batch[..j][..j - 1] == batch[..j - 1];
    }
  }

  lemma PlacedAtExecutor(cfg: Config, now: real, actions: seq<Action>, j: nat)
    requires var u := Run(cfg, Initial(now), actions); u.phase.Executing? && j < |u.phase.valid|
    ensures
      var u := Run(cfg, Initial(now), actions);
      var Executing(begun, valid, _, slices) := u.phase;
      && StartedAt(cfg, Initial(now), actions) == Some(begun)
      && Places(u.admitted, valid, valid[j], slices[j].from)
      && slices[j].to == slices[j].from + |u.admitted[valid[j]].inputs|
  {
    var u := Run(cfg, Initial(now), actions);
    SlicesTile(cfg, now, actions);
    RunKeepsStart(cfg, now, actions);
    SlicePlace(u.admitted, u.phase.valid, u.phase.flat, u.phase.slices, j);
  }

  lemma ReturnScatters(cfg: Config, s: State, output: Output)
    requires WellFormed(s) && s.phase.Executing?
    ensures
      var t := Step(cfg, s, Return(output));
      t.phase == Scattering(s.phase.valid, s.phase.slices, output, s.phase.start, s.now) && t.admitted == s.admitted
  {}

  lemma ReturnDelivers(cfg: Config, now: real, actions: seq<Action>, output: Output, j: nat)
    requires actions != [] && actions[|actions| - 1] == Return(output)
    requires
      var u := Run(cfg, Initial(now), actions[..|actions| - 1]);
      u.phase.Executing? && j < |u.phase.valid|
    ensures
      var t := Run(cfg, Initial(now), actions);
      t.phase.Scattering? && j < |t.phase.todo| && SliceDelivered(cfg, Initial(now), actions, j)
  {
    var start, rest := Initial(now), actions[..|actions| - 1];
    var u := Run(cfg, start, rest);
    PlacedAtExecutor(cfg, now, rest, j);
    ReturnScatters(cfg, u, output);
    DeliveredNow(cfg, start, actions, u.phase.valid[j], Delivery(u.phase.slices[j].from, output, u.phase.start, u.now));
  }

  lemma TurnsToScatter(cfg: Config, s: State, a: Action)
    requires WellFormed(s)
    ensures
      var p, p' := s.phase, Step(cfg, s, a).phase;
      p'.Scattering? ==>
        || (p.Scattering? && p' == p)
        || (p.Scattering? && p.todo != [] && p' == Scattering(p.todo[1..], p.slices[1..], p.output, p.start, p.end))
        || (a == Return(p'.output) && p.Executing? && p'.todo == p.valid)
  {
    if a.Go? {
      if s.phase.Scattering? { ScatteringTurns(s); } else { NoOtherTurnScatters(cfg, s); }
    }
  }

  lemma ScatteringTurns(s: State)
    requires WellFormed(s) && s.phase.Scattering?
    ensures
      var p, p' := s.phase, GoScattering(s).phase;
      p'.Scattering? ==> p.todo != [] && p' == Scattering(p.todo[1..], p.slices[1..], p.output, p.start, p.end)
  {}

  lemma NoOtherTurnScatters(cfg: Config, s: State)
    requires WellFormed(s) && !s.phase.Scattering?
    ensures !GoStep(cfg, s).phase.Scattering?
  {}

  /** A slice that was already waiting is still the one delivered. */
  lemma SliceStays(cfg: Config, s: State, actions: seq<Action>, j: nat, before: nat)
    requires WellFormed(s) && actions != []
    requires
      var p, p' := Run(cfg, s, actions[..|actions| - 1]).phase, Run(cfg, s, actions).phase;
      && p.Scattering? && p'.Scattering? && before < |p.todo| && j < |p'.todo|
      && p'.todo[j] == p.todo[before] && p'.slices[j] == p.slices[before]
      && p'.output == p.output && p'.start == p.start && p'.end == p.end
      && SliceDelivered(cfg, s, actions[..|actions| - 1], before)
    ensures SliceDelivered(cfg, s, actions, j)
  {
    var rest := actions[..|actions| - 1];
    var u, p := Run(cfg, s, rest), Run(cfg, s, actions).phase;
    StepAdmits(cfg, u, actions[|actions| - 1]);
    var d := Delivery(p.slices[j].from, p.output, p.start, p.end);
    var k: nat :| DeliveredAt(cfg, s, rest, k, p.todo[j], d);
    DeliveredEarlier(cfg, s, actions, k, p.todo[j], d);
  }

  lemma {:induction false} RunDelivers(cfg: Config, now: real, actions: seq<Action>)
    ensures SlicesDelivered(cfg, Initial(now), actions)
    decreases |actions|
  {
    if actions != [] {
      var start, rest, a := Initial(now), actions[..|actions| - 1], actions[|actions| - 1];
      var p, p' := Run(cfg, start, rest).phase, Run(cfg, start, actions).phase;
      RunDelivers(cfg, now, rest);
      TurnsToScatter(cfg, Run(cfg, start, rest), a);
      if p'.Scattering? {
        forall j: nat | j < |p'.todo|
          ensures SliceDelivered(cfg, start, actions, j)
        {
          if p.Scattering? {
            var before := if p' == p then j else j + 1;
            assert SliceDelivered(cfg, start, rest, before);
            SliceStays(cfg, start, actions, j, before);
          } else {
            ReturnDelivers(cfg, now, actions, p'.output, j);
          }
        }
      }
    }
  }

  // ----- results -----

  lemma CutIsPart<T>(xs: seq<T>, sl: Slice)
    requires sl.from <= sl.to
    ensures PartFrom(CutSlice(xs, sl), xs, sl.from, sl.to - sl.from)
  {}

  /** A new result goes to the next envelope of the batch that came back and reports its slice. */
  lemma NewResults(cfg: Config, s: State, a: Action, i: nat)
    requires WellFormed(s) && Timed(s)
    requires i < |Step(cfg, s, a).futures| && Step(cfg, s, a).futures[i].Value?
    requires !(i < |s.futures| && s.futures[i] == Step(cfg, s, a).futures[i])
    ensures s.phase.Scattering? && s.phase.todo != [] && s.phase.todo[0] == i && i < |s.admitted|
    ensures
      var Scattering(_, slices, output, start, end) := s.phase;
      slices[0].to == slices[0].from + |s.admitted[i].inputs| ==>
        Reports(Step(cfg, s, a).futures[i].result, s.admitted[i], Delivery(slices[0].from, output, start, end))
  {
    var t := Step(cfg, s, a);
    StepSettles(cfg, s, a);
    var j: nat, outcome :| Settles(s, t, j, outcome);
    assert Answering(s, i) && outcome.result == ResultFor(s);
    ClampsAreIdle(s);
    var slice := s.phase.slices[0];
    if slice.to == slice.from + |s.admitted[i].inputs| { CutIsPart(s.phase.output.predictions, slice); }
  }

  ghost predicate ResultsEarned(cfg: Config, s: State, actions: seq<Action>)
    requires WellFormed(s)
  {
    var t := Run(cfg, s, actions);
    forall i: nat :: i < |t.futures| && t.futures[i].Value? ==>
      Earned(cfg, s, actions, i, t.admitted[i], t.futures[i].result)
  }

  lemma NewResultIsEarned(cfg: Config, now: real, actions: seq<Action>, i: nat)
    requires actions != []
    requires
      var u, t := Run(cfg, Initial(now), actions[..|actions| - 1]), Run(cfg, Initial(now), actions);
      i < |t.futures| && t.futures[i].Value? && !(i < |u.futures| && u.futures[i] == t.futures[i])
    ensures
      var t := Run(cfg, Initial(now), actions);
      Earned(cfg, Initial(now), actions, i, t.admitted[i], t.futures[i].result)
  {
    var start, rest, a := Initial(now), actions[..|actions| - 1], actions[|actions| - 1];
    var u, t := Run(cfg, start, rest), Run(cfg, start, actions);
    TimesAreMeasured(cfg, now, rest);
    RunDelivers(cfg, now, rest);
    StepAdmits(cfg, u, a);
    NewResults(cfg, u, a, i);
    assert SliceDelivered(cfg, start, rest, 0);
    var d := Delivery(u.phase.slices[0].from, u.phase.output, u.phase.start, u.phase.end);
    var k: nat :| DeliveredAt(cfg, start, rest, k, i, d);
    DeliveredEarlier(cfg, start, actions, k, i, d);
  }

  lemma {:induction false} RunEarnsResults(cfg: Config, now: real, actions: seq<Action>)
    ensures ResultsEarned(cfg, Initial(now), actions)
    decreases |actions|
  {
    if actions != [] {
      var start, rest := Initial(now), actions[..|actions| - 1];
      var u, t := Run(cfg, start, rest), Run(cfg, start, actions);
      RunEarnsResults(cfg, now, rest);
      StepAdmits(cfg, u, actions[|actions| - 1]);
      forall i: nat | i < |t.futures| && t.futures[i].Value?
        ensures Earned(cfg, start, actions, i, t.admitted[i], t.futures[i].result)
      {
        if i < |u.futures| && u.futures[i] == t.futures[i] {
          EarnedEarlier(cfg, start, actions, i, t.admitted[i], t.futures[i].result);
        } else {
          NewResultIsEarned(cfg, now, actions, i);
        }
      }
    }
  }

  /**
   Whatever the executor answers, every result ever given comes from a delivery for the very batch its
   request was in: its predictions are the part of the output at the places the request's own inputs
   had in the batch, the three times are the output's, the queue time runs from the request's admission
   to the start of that batch, and the total time from there to that delivery.
   */
  lemma {:induction false} ResultsComeFromTheirBatch(cfg: Config, now: real, actions: seq<Action>, i: nat)
    requires var s := Run(cfg, Initial(now), actions); i < |s.futures| && s.futures[i].Value?
    ensures
      var s, asked := Run(cfg, Initial(now), actions), Requests(cfg, Initial(now), actions);
      i < |asked| && Earned(cfg, Initial(now), actions, i, asked[i], s.futures[i].result)
  {
    TicketsAreRequests(cfg, now, actions);
    RunEarnsResults(cfg, now, actions);
  }
}
