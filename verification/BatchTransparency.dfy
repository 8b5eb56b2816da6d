/**
 Batching is invisible to a request: whatever shares its batch, and whichever of its batch mates
 are cancelled or expire, a request that gets a result gets the model's answers to its own inputs,
 in its own order, as if the model had been run on that request alone.
 */
module BatchTransparency {
  import opened Lists
  import opened BatchMachine
  import opened BatchConservation
  import opened BatchRequests
  import opened BatchSettlement

  predicate Cuts(flat: seq<string>, sl: Slice, inputs: seq<string>) {
    sl.from <= sl.to <= |flat| && flat[sl.from..sl.to] == inputs
  }

  /** The first slice starts at 0, every other where its predecessor ends, and the last ends at `end`. */
  predicate Adjoin(slices: seq<Slice>, end: nat) {
    && (slices != [] ==> slices[0].from == 0)
    && (forall j, k :: 0 <= j && k == j + 1 < |slices| ==> slices[k].from == slices[j].to)
    && end == if slices == [] then 0 else slices[|slices| - 1].to
  }

  /** The slices cut flat, without gap or overlap, into the inputs of the listed envelopes. */
  ghost predicate Tiles(admitted: seq<Envelope>, xs: seq<nat>, flat: seq<string>, slices: seq<Slice>)
    requires Below(xs, |admitted|)
  {
    && |slices| == |xs|
    && Adjoin(slices, |flat|)
    && forall k :: 0 <= k < |slices| ==> Cuts(flat, slices[k], admitted[xs[k]].inputs)
  }

  lemma CutsLater(flat: seq<string>, more: seq<string>, sl: Slice, inputs: seq<string>)
    requires Cuts(flat, sl, inputs)
    ensures Cuts(flat + more, sl, inputs)
  {
    assert (flat + more)[sl.from..sl.to] == flat[sl.from..sl.to];
  }

  lemma TilesSnoc(admitted: seq<Envelope>, xs: seq<nat>, flat: seq<string>, slices: seq<Slice>, i: nat)
    requires Below(xs, |admitted|) && i < |admitted|
    requires Tiles(admitted, xs, flat, slices)
    ensures
      var inputs := admitted[i].inputs;
      Tiles(admitted, xs + [i], flat + inputs, slices + [Slice(|flat|, |flat| + |inputs|)])
  {
    var inputs := admitted[i].inputs;
    var slices' := slices + [Slice(|flat|, |flat| + |inputs|)];
    forall k | 0 <= k < |slices'|
      ensures Cuts(flat + inputs, slices'[k], admitted[(xs + [i])[k]].inputs)
    {
      if k < |slices| {
        CutsLater(flat, inputs, slices[k], admitted[xs[k]].inputs);
      }
    }
  }

  ghost predicate TiledSoFar(s: State)
    requires WellFormed(s)
  {
    match s.phase
    case Preparing(_, _, valid, flat, slices) => Tiles(s.admitted, valid, flat, slices)
    case Executing(_, valid, flat, slices) => Tiles(s.admitted, valid, flat, slices)
    case _ => true
  }

  lemma PreparingKeepsTiled(s: State)
    requires WellFormed(s) && TiledSoFar(s) && s.phase.Preparing?
    ensures TiledSoFar(GoPreparing(s))
  {
    if s.phase.todo != [] && Live(s, s.phase.todo[0]) {
      TilesSnoc(s.admitted, s.phase.valid, s.phase.flat, s.phase.slices, s.phase.todo[0]);
    }
  }

  lemma StepKeepsTiled(cfg: Config, s: State, a: Action)
    requires WellFormed(s) && TiledSoFar(s)
    ensures TiledSoFar(Step(cfg, s, a))
  {
    if a.Go? && s.phase.Preparing? { PreparingKeepsTiled(s); }
  }

  /** Whenever a batch is at the executor, its slices tile the flattened inputs, one slice an envelope. */
  lemma {:induction false} SlicesTile(cfg: Config, now: real, actions: seq<Action>)
    ensures TiledSoFar(Run(cfg, Initial(now), actions))
    decreases |actions|
  {
    if actions != [] {
      var rest := actions[..|actions| - 1];
      SlicesTile(cfg, now, rest);
      StepKeepsTiled(cfg, Run(cfg, Initial(now), rest), actions[|actions| - 1]);
    }
  }

  // ----- a pointwise, length-preserving model -----

  type Model = string -> Prediction

  /** The executor answers a batch with the model's answer to each of its inputs. */
  predicate Pointwise(f: Model, s: State, a: Action) {
    a.Return? && s.phase.Executing? ==> a.output.predictions == Map(f, s.phase.flat)
  }

  ghost predicate PointwiseRun(f: Model, cfg: Config, s: State, actions: seq<Action>)
    requires WellFormed(s)
    decreases |actions|
  {
    actions != [] ==>
      var rest := actions[..|actions| - 1];
      PointwiseRun(f, cfg, s, rest) && Pointwise(f, Run(cfg, s, rest), actions[|actions| - 1])
  }

  /** What the model answers when the request is run alone. */
  function Alone(f: Model, env: Envelope): seq<Prediction> {
    Map(f, env.inputs)
  }

  /** The outputs wait in the right slices, and every result already given is the request's own. */
  ghost predicate Faithful(f: Model, s: State)
    requires WellFormed(s)
  {
    && TiledSoFar(s)
    && (s.phase.Scattering? ==>
          forall k :: 0 <= k < |s.phase.todo| ==>
            CutSlice(s.phase.output.predictions, s.phase.slices[k]) == Alone(f, s.admitted[s.phase.todo[k]]))
    && (forall i :: 0 <= i < |s.futures| && s.futures[i].Value? ==>
          s.futures[i].result.predictions == Alone(f, s.admitted[i]))
  }

  lemma ReturnFaithful(f: Model, cfg: Config, s: State, a: Action)
    requires WellFormed(s) && Faithful(f, s) && Pointwise(f, s, a)
    requires a.Return? && s.phase.Executing?
    ensures Faithful(f, Step(cfg, s, a))
  {
    var t := Step(cfg, s, a);
    var Executing(_, valid, flat, slices) := s.phase;
    forall k | 0 <= k < |valid|
      ensures CutSlice(a.output.predictions, slices[k]) == Alone(f, s.admitted[valid[k]])
    {
      var from, to := slices[k].from, slices[k].to;
      assert flat[from..to] == s.admitted[valid[k]].inputs;
      assert Map(f, flat)[from..to] == Map(f, flat[from..to]);
    }
  }

  lemma ScatterFaithful(f: Model, s: State)
    requires WellFormed(s) && Faithful(f, s) && s.phase.Scattering?
    ensures Faithful(f, GoScattering(s))
  {
    if s.phase.todo != [] {
      assert CutSlice(s.phase.output.predictions, s.phase.slices[0]) == Alone(f, s.admitted[s.phase.todo[0]]);
    }
  }

  /** Every step but a return from the executor and a scatter leaves the results alone. */
  lemma OtherStepsGiveNoResult(cfg: Config, s: State, a: Action)
    requires WellFormed(s) && !(a.Go? && s.phase.Scattering?)
    ensures
      var t := Step(cfg, s, a);
      && s.admitted <= t.admitted
      && forall i :: 0 <= i < |t.futures| && t.futures[i].Value? ==> i < |s.futures| && t.futures[i] == s.futures[i]
  {
    var t := Step(cfg, s, a);
    StepSettles(cfg, s, a);
    if !Spares(s, t) {
      var i: nat, outcome :| Settles(s, t, i, outcome);
      assert t.futures[i] == outcome;
    }
  }

  lemma OnlyReturnsScatter(cfg: Config, s: State, a: Action)
    requires WellFormed(s) && !(a.Go? && s.phase.Scattering?)
    ensures var t := Step(cfg, s, a); t.phase.Scattering? ==> t.phase == s.phase || (a.Return? && s.phase.Executing?)
  {}

  lemma StepFaithful(f: Model, cfg: Config, s: State, a: Action)
    requires WellFormed(s) && Faithful(f, s) && Pointwise(f, s, a)
    ensures Faithful(f, Step(cfg, s, a))
  {
    StepKeepsTiled(cfg, s, a);
    if a.Return? && s.phase.Executing? {
      ReturnFaithful(f, cfg, s, a);
    } else if a.Go? && s.phase.Scattering? {
      ScatterFaithful(f, s);
    } else {
      OtherStepsGiveNoResult(cfg, s, a);
      OnlyReturnsScatter(cfg, s, a);
    }
  }

  lemma {:induction false} RunFaithful(f: Model, cfg: Config, s: State, actions: seq<Action>)
    requires WellFormed(s) && Faithful(f, s) && PointwiseRun(f, cfg, s, actions)
    ensures Faithful(f, Run(cfg, s, actions))
    decreases |actions|
  {
    if actions != [] {
      var rest := actions[..|actions| - 1];
      RunFaithful(f, cfg, s, rest);
      StepFaithful(f, cfg, Run(cfg, s, rest), actions[|actions| - 1]);
    }
  }

  // ----- how requests end -----

  /** The k-th action was the executor raising on a batch that held i. */
  predicate RaisedAt(cfg: Config, s: State, actions: seq<Action>, k: nat, i: nat)
    requires WellFormed(s) && k < |actions|
  {
    var u := Run(cfg, s, actions[..k]);
    actions[k].Raise? && u.phase.Executing? && i in u.phase.valid
  }

  ghost predicate RaisedOn(cfg: Config, s: State, actions: seq<Action>, i: nat)
    requires WellFormed(s)
  {
    exists k :: 0 <= k < |actions| && RaisedAt(cfg, s, actions, k, i)
  }

  lemma RaisedEarlier(cfg: Config, s: State, actions: seq<Action>, i: nat)
    requires WellFormed(s) && actions != [] && RaisedOn(cfg, s, actions[..|actions| - 1], i)
    ensures RaisedOn(cfg, s, actions, i)
  {
    var rest := actions[..|actions| - 1];
    var k :| 0 <= k < |rest| && RaisedAt(cfg, s, rest, k, i);
    assert rest[..k] == actions[..k];
    assert RaisedAt(cfg, s, actions, k, i);
  }

  lemma FailingSpreadsNot(cfg: Config, s: State, a: Action)
    requires WellFormed(s)
    ensures
      var t := Step(cfg, s, a);
      t.phase.Failing? ==>
        || (s.phase.Failing? && forall i :: i in t.phase.todo ==> i in s.phase.todo)
        || (a.Raise? && s.phase.Executing? && t.phase.todo == s.phase.valid)
  {}

  /** A new inference error goes to the next envelope of a batch that the executor raised on. */
  lemma NewFailures(cfg: Config, s: State, a: Action, i: nat)
    requires WellFormed(s)
    ensures
      var t := Step(cfg, s, a);
      i < |t.futures| && t.futures[i] == Error(InferenceFailed) ==>
        || (i < |s.futures| && s.futures[i] == t.futures[i])
        || (s.phase.Failing? && i in s.phase.todo)
  {
    var t := Step(cfg, s, a);
    StepSettles(cfg, s, a);
    if !Spares(s, t) {
      var j: nat, outcome :| Settles(s, t, j, outcome);
      if outcome == Error(InferenceFailed) { OnlyFailingFails(cfg, s, a, j); }
    }
  }

  lemma OnlyFailingFails(cfg: Config, s: State, a: Action, i: nat)
    requires WellFormed(s) && i < |s.futures| && s.futures[i] == Pending
    requires Step(cfg, s, a).futures[i] == Error(InferenceFailed)
    ensures s.phase.Failing? && i in s.phase.todo
  {}

  /** Whoever is told, or about to be told, of a failed inference was in a batch the executor raised on. */
  ghost predicate FailuresEarned(cfg: Config, s: State, actions: seq<Action>)
    requires WellFormed(s)
  {
    var t := Run(cfg, s, actions);
    && (forall i: nat :: i < |t.futures| && t.futures[i] == Error(InferenceFailed) ==> RaisedOn(cfg, s, actions, i))
    && (t.phase.Failing? ==> forall i :: i in t.phase.todo ==> RaisedOn(cfg, s, actions, i))
  }

  lemma StepEarnsFailures(cfg: Config, s: State, actions: seq<Action>)
    requires WellFormed(s) && actions != [] && FailuresEarned(cfg, s, actions[..|actions| - 1])
    ensures FailuresEarned(cfg, s, actions)
  {
    var rest, a := actions[..|actions| - 1], actions[|actions| - 1];
    var u, t := Run(cfg, s, rest), Run(cfg, s, actions);
    forall i: nat | RaisedOn(cfg, s, rest, i)
      ensures RaisedOn(cfg, s, actions, i)
    {
      RaisedEarlier(cfg, s, actions, i);
    }
    FailingSpreadsNot(cfg, u, a);
    if t.phase.Failing? && a.Raise? && u.phase.Executing? {
      forall i | i in t.phase.todo
        ensures RaisedOn(cfg, s, actions, i)
      {
        assert RaisedAt(cfg, s, actions, |rest|, i);
      }
    }
    forall i: nat | i < |t.futures| && t.futures[i] == Error(InferenceFailed)
      ensures RaisedOn(cfg, s, actions, i)
    {
      NewFailures(cfg, u, a, i);
    }
  }

  lemma {:induction false} RunEarnsFailures(cfg: Config, now: real, actions: seq<Action>)
    ensures FailuresEarned(cfg, Initial(now), actions)
    decreases |actions|
  {
    if actions != [] {
      RunEarnsFailures(cfg, now, actions[..|actions| - 1]);
      StepEarnsFailures(cfg, Initial(now), actions);
    }
  }

  /** How a request should end: withdrawn by its caller, answered as if alone and in time, or refused because it was late. */
  ghost predicate FairlyEnded(f: Model, asked: seq<Envelope>, s: State, i: nat)
    requires i < |s.futures| == |asked|
  {
    || s.futures[i] == Cancelled
    || (exists k: nat :: SettledAt(s, k, i) && s.futures[i].Value? && s.history.settlements[k].at <= asked[i].deadline
                    && s.futures[i].result.predictions == Alone(f, asked[i]))
    || (exists k: nat :: SettledAt(s, k, i) && s.futures[i].Error? && s.futures[i].failure != InferenceFailed
                    && s.history.settlements[k].at > asked[i].deadline)
  }

  predicate SettledAt(s: State, k: nat, i: nat) {
    k < |s.history.settlements| && s.history.settlements[k].ticket == i
  }

  /** Transparency: under a pointwise model every result ever given is the one its request, as made, would get alone. */
  lemma {:induction false} BatchingIsTransparent(f: Model, cfg: Config, now: real, actions: seq<Action>)
    requires PointwiseRun(f, cfg, Initial(now), actions)
    ensures
      var s, asked := Run(cfg, Initial(now), actions), Requests(cfg, Initial(now), actions);
      && |s.futures| == |asked|
      && forall i :: 0 <= i < |s.futures| && s.futures[i].Value? ==>
           s.futures[i].result.predictions == Alone(f, asked[i])
  {
    RunFaithful(f, cfg, Initial(now), actions);
    TicketsAreRequests(cfg, now, actions);
  }

  /**
   An accepted request that is no longer in custody was withdrawn, answered in time as if it had
   been alone, refused late, or told of a failed inference because the executor raised on the very
   batch it was in.
   */
  lemma {:induction false} EveryRequestEndsFairly(f: Model, cfg: Config, now: real, actions: seq<Action>, i: nat)
    requires PointwiseRun(f, cfg, Initial(now), actions)
    requires var s := Run(cfg, Initial(now), actions); i < |s.futures| && i !in Custody(s)
    ensures
      var s, asked := Run(cfg, Initial(now), actions), Requests(cfg, Initial(now), actions);
      && |asked| == |s.futures|
      && (FairlyEnded(f, asked, s, i) || (s.futures[i] == Error(InferenceFailed) && RaisedOn(cfg, Initial(now), actions, i)))
  {
    TicketsAreRequests(cfg, now, actions);
    RunFaithful(f, cfg, Initial(now), actions);
    RunConserves(cfg, Initial(now), actions);
    SettlementIsSound(cfg, now, actions);
    RunEarnsFailures(cfg, now, actions);
    DisposedEndsFairly(f, Run(cfg, Initial(now), actions), i);
  }

  lemma DisposedEndsFairly(f: Model, s: State, i: nat)
    requires WellFormed(s) && Conserved(s) && Sound(s) && Faithful(f, s)
    requires i < |s.futures| && i !in Custody(s)
    ensures FairlyEnded(f, s.admitted, s, i) || s.futures[i] == Error(InferenceFailed)
  {
    OutOfCustodyIsDone(s, i);
    if s.futures[i] != Cancelled {
      var log := s.history.settlements;
      assert Logged(log, i);
      var k :| 0 <= k < |log| && log[k].ticket == i;
      assert SettledAt(s, k, i) && Recorded(s, log[k]);
    }
  }
}
