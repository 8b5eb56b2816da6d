/**
 What an ejected worker can still do to its callers, and what becomes of a draining one.
 */
module RoutingIsolation {
  import opened Clock
  import opened WorkerHealth
  import opened Scheduling
  import opened Routing
  import opened RoutingProtocol
  import opened RoutingErrors

  // ----- replies of an ejected worker -----

  /** The action is a reply from w to an outstanding call. */
  predicate Answers(s: State, a: Action, w: string) {
    a.Deliver? && a.call in s.calls && s.calls[a.call].InFlight? && s.calls[a.call].worker == w
  }

  /** How many replies come from w along the run. */
  function RepliesFrom(cfg: Config, order: seq<string>, s: State, actions: seq<Action>, w: string): nat
    decreases |actions|
  {
    if actions == [] then 0
    else
      var rest := actions[..|actions| - 1];
      RepliesFrom(cfg, order, s, rest, w)
      + if Answers(Run(cfg, order, s, rest), actions[|actions| - 1], w) then 1 else 0
  }

  ghost predicate NeverSelected(cfg: Config, order: seq<string>, s: State, actions: seq<Action>, w: string)
    decreases |actions|
  {
    actions != [] ==>
      var rest := actions[..|actions| - 1];
      var u := Run(cfg, order, s, rest);
      NeverSelected(cfg, order, s, rest, w) && !Selects(u, Step(cfg, order, u, actions[|actions| - 1]), w)
  }

  /** A reply never leaves its call as it was. */
  lemma ReplyChangesCall(cfg: Config, order: seq<string>, s: State, c: nat, reply: Reply, lag: Duration)
    requires c in s.calls && s.calls[c].InFlight?
    ensures var t := DeliverStep(cfg, order, s, c, reply, lag); c in t.calls && t.calls[c] != s.calls[c]
  {}

  /** Without a new selection of w the calls on w stay, except the one that w answers. */
  lemma HoldersWithoutSelection(cfg: Config, order: seq<string>, s: State, a: Action, w: string, d: nat)
    requires !Selects(s, Step(cfg, order, s, a), w)
    ensures d in Holders(Step(cfg, order, s, a).calls, w)
       <==> d in Holders(s.calls, w) && !(Answers(s, a, w) && d == a.call)
  {
    var t := Step(cfg, order, s, a);
    assert !NewlyOn(s, t, w, d);
    if a.Begin? && a.call == d && d !in s.calls {
    } else if a.Deliver? && a.call == d && d in s.calls && s.calls[d].InFlight? {
      ReplyChangesCall(cfg, order, s, d, a.reply, a.lag);
    } else {
      OtherCallsKept(cfg, order, s, a, d);
    }
  }

  lemma OneHolderLess(cfg: Config, order: seq<string>, s: State, a: Action, w: string)
    requires !Selects(s, Step(cfg, order, s, a), w)
    ensures |Holders(Step(cfg, order, s, a).calls, w)| + (if Answers(s, a, w) then 1 else 0) == |Holders(s.calls, w)|
  {
    var now, then' := Holders(s.calls, w), Holders(Step(cfg, order, s, a).calls, w);
    forall d
      ensures d in then' <==> d in now && !(Answers(s, a, w) && d == a.call)
    {
      if d in then' || d in now { HoldersWithoutSelection(cfg, order, s, a, w, d); }
    }
    if Answers(s, a, w) {
      assert a.call in now && then' == now - {a.call};
    } else {
      assert then' == now;
    }
  }

  /** Between selections every reply from w uses up one of the calls that were on it. */
  lemma {:induction false} RepliesUseUpHolders(cfg: Config, order: seq<string>, s: State, actions: seq<Action>, w: string)
    requires NeverSelected(cfg, order, s, actions, w)
    ensures RepliesFrom(cfg, order, s, actions, w) + |Holders(Run(cfg, order, s, actions).calls, w)| == |Holders(s.calls, w)|
    decreases |actions|
  {
    if actions != [] {
      var rest := actions[..|actions| - 1];
      RepliesUseUpHolders(cfg, order, s, rest, w);
      OneHolderLess(cfg, order, Run(cfg, order, s, rest), actions[|actions| - 1], w);
    }
  }

  /** The step turns w from healthy to unhealthy, by a mark or by a failed probe. */
  predicate EjectedBy(cfg: Config, order: seq<string>, s: State, a: Action, w: string) {
    var t := Step(cfg, order, s, a);
    IsHealthy(s.pool.nodes, w) && w in t.pool.nodes && t.pool.nodes[w].health.state == Unhealthy
  }

  /** No selection before the probes have shown a recovery streak. */
  lemma {:induction false} UnselectedUntilStreak(cfg: Config, order: seq<string>, s: State, a: Action, actions: seq<Action>, w: string)
    requires EjectedBy(cfg, order, s, a, w)
    requires !HadStreak(Verdicts(Trace(cfg, order, Step(cfg, order, s, a), actions, w)), cfg.thresholds.recovery)
    ensures NeverSelected(cfg, order, Step(cfg, order, s, a), actions, w)
    decreases |actions|
  {
    if actions != [] {
      var t, rest := Step(cfg, order, s, a), actions[..|actions| - 1];
      var u := Run(cfg, order, t, rest);
      StreakAlongTrace(cfg, order, t, actions, w);
      UnselectedUntilStreak(cfg, order, s, a, rest, w);
      if Selects(u, Step(cfg, order, u, actions[|actions| - 1]), w) {
        EjectedWorkerIsIsolated(cfg, order, s, a, actions, w);
      }
    }
  }

  lemma StreakAlongTrace(cfg: Config, order: seq<string>, s: State, actions: seq<Action>, w: string)
    requires actions != []
    ensures HadStreak(Verdicts(Trace(cfg, order, s, actions[..|actions| - 1], w)), cfg.thresholds.recovery) ==>
              HadStreak(Verdicts(Trace(cfg, order, s, actions, w)), cfg.thresholds.recovery)
  {
    var rest := actions[..|actions| - 1];
    var seen, more := Trace(cfg, order, s, rest, w), EventsOf(cfg, Run(cfg, order, s, rest), actions[|actions| - 1], w);
    VerdictsConcat(seen, more);
    if HadStreak(Verdicts(seen), cfg.thresholds.recovery) { StreakKept(Verdicts(seen), Verdicts(more), cfg.thresholds.recovery); }
  }

  /**
   What an ejection can still cost: until the probes have shown a recovery streak, the replies that
   come from the ejected worker and the calls still outstanding on it add up to the calls that were
   outstanding on it when it was ejected, and those are within the cap.
   */
  lemma {:induction false} EjectionBoundsDamage(cfg: Config, order: seq<string>, now: real, before: seq<Action>, a: Action,
                                                actions: seq<Action>, w: string)
    requires EjectedBy(cfg, order, Run(cfg, order, Initial(order, now), before), a, w)
    requires
      var t := Step(cfg, order, Run(cfg, order, Initial(order, now), before), a);
      !HadStreak(Verdicts(Trace(cfg, order, t, actions, w)), cfg.thresholds.recovery)
    ensures
      var t := Step(cfg, order, Run(cfg, order, Initial(order, now), before), a);
      var u := Run(cfg, order, t, actions);
      && w in u.pool.nodes
      && RepliesFrom(cfg, order, t, actions, w) + u.pool.nodes[w].outstanding == t.pool.nodes[w].outstanding
      && (t.pool.nodes[w].outstanding == 0 || t.pool.nodes[w].outstanding <= cfg.cap)
  {
    var s := Run(cfg, order, Initial(order, now), before);
    var t := Step(cfg, order, s, a);
    UnselectedUntilStreak(cfg, order, s, a, actions, w);
    RepliesUseUpHolders(cfg, order, t, actions, w);
    HealthFollowsTrace(cfg, order, t, actions, w);
    CountedAlong(cfg, order, now, before, a, actions, w);
  }

  lemma CountedAlong(cfg: Config, order: seq<string>, now: real, before: seq<Action>, a: Action, actions: seq<Action>, w: string)
    ensures
      var t := Step(cfg, order, Run(cfg, order, Initial(order, now), before), a);
      var u := Run(cfg, order, t, actions);
      && (w in t.pool.nodes ==>
            && t.pool.nodes[w].outstanding == |Holders(t.calls, w)|
            && (t.pool.nodes[w].outstanding == 0 || t.pool.nodes[w].outstanding <= cfg.cap))
      && (w in u.pool.nodes ==> u.pool.nodes[w].outstanding == |Holders(u.calls, w)|)
  {
    var start := Initial(order, now);
    RunOneMore(cfg, order, start, before, a);
    RunConcat(cfg, order, start, before + [a], actions);
    ReservationsAreConserved(cfg, order, now, before + [a]);
    ReservationsAreConserved(cfg, order, now, before + [a] + actions);
  }

  // ----- a draining worker takes no notice -----

  lemma DrainingStays(cfg: Config, order: seq<string>, s: State, actions: seq<Action>, w: string)
    requires w in s.pool.nodes && s.pool.nodes[w].health.state == Draining
    ensures var t := Run(cfg, order, s, actions); w in t.pool.nodes && t.pool.nodes[w].health.state == Draining
  {
    HealthFollowsTrace(cfg, order, s, actions, w);
    DrainingIsFinal(cfg.thresholds, s.pool.nodes[w].health, Trace(cfg, order, s, actions, w));
  }

  function StateReport(cfg: Config, state: WorkerState): Action {
    ProbeWorker("w", Status(cfg.expected.modelVersion, cfg.expected.modelSha256, state))
  }

  /** A call is outstanding on the only worker when it reports DRAINING. */
  function CallThenDrain(cfg: Config, timeoutMs: int): seq<Action> {
    LoneFailure(cfg, timeoutMs)[..2] + [StateReport(cfg, StateDraining)]
  }

  lemma CallThenDrainReached(cfg: Config, now: real, timeoutMs: int)
    requires cfg.cap > 0 && timeoutMs > 0
    ensures
      var s := Run(cfg, ["w"], Initial(["w"], now), CallThenDrain(cfg, timeoutMs));
      && 0 in s.calls && s.calls[0].InFlight? && s.calls[0].worker == "w"
      && "w" in s.pool.nodes && s.pool.nodes["w"].health.state == Draining
  {
    var start, tape := Initial(["w"], now), LoneFailure(cfg, timeoutMs)[..2];
    SoleWorkerIsCalled(cfg, now, timeoutMs);
    assert "w" in Run(cfg, ["w"], start, tape).pool.nodes.Keys;
    RunOneMore(cfg, ["w"], start, tape, StateReport(cfg, StateDraining));
  }

  /**
   A worker that has reported DRAINING with a call outstanding: neither the call's UNAVAILABLE reply
   marks it unhealthy, nor does any number of compatible probes restore it.
   */
  lemma DrainingDefiesMarkAndProbes(cfg: Config, now: real, timeoutMs: int, reply: Reply, n: nat)
    requires cfg.cap > 0 && timeoutMs > 0 && WasUnavailable(Rpc("w", reply))
    ensures
      var s := Run(cfg, ["w"], Initial(["w"], now), CallThenDrain(cfg, timeoutMs));
      var marked := Run(cfg, ["w"], s, [Deliver(0, reply, 0.0)]);
      var probed := Run(cfg, ["w"], s, seq(n, _ => StateReport(cfg, StateReady)));
      && 0 in s.calls && s.calls[0].InFlight? && s.calls[0].worker == "w"
      && "w" in marked.pool.nodes && marked.pool.nodes["w"].health.state == Draining
      && "w" in probed.pool.nodes && probed.pool.nodes["w"].health.state == Draining
  {
    var s := Run(cfg, ["w"], Initial(["w"], now), CallThenDrain(cfg, timeoutMs));
    CallThenDrainReached(cfg, now, timeoutMs);
    DrainingStays(cfg, ["w"], s, [Deliver(0, reply, 0.0)], "w");
    DrainingStays(cfg, ["w"], s, seq(n, _ => StateReport(cfg, StateReady)), "w");
  }
}
