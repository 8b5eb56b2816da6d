/**
 What every prediction and every worker goes through in any run of the gateway: the retry protocol,
 the meaning of its errors, and the isolation of ejected and draining workers.
 */
module RoutingProtocol {
  import opened Clock
  import opened Lists
  import opened WorkerHealth
  import opened Scheduling
  import opened Routing

  // ----- the retry protocol -----

  predicate WasUnavailable(rpc: Rpc) {
    rpc.reply.Refused? && rpc.reply.code == Unavailable
  }

  /** The attempts of one prediction: at most two; the second only after an unavailable first, elsewhere. */
  predicate Attempts(rpcs: seq<Rpc>) {
    && |rpcs| <= 2
    && (|rpcs| == 2 ==> WasUnavailable(rpcs[0]) && rpcs[1].worker != rpcs[0].worker)
  }

  /** The outcome is the one the attempts call for. */
  predicate Explains(rpcs: seq<Rpc>, outcome: Outcome) {
    if rpcs == [] then
      outcome in {Failure(DeadlineExceededError), Failure(NoHealthyWorkerError), Failure(GatewayAtCapacityError)}
    else
      var last := rpcs[|rpcs| - 1];
      match last.reply
      case Answered => outcome == Success(last.worker, |rpcs|)
      case Interrupted => outcome == Aborted
      case Refused(code, unsupportedModel) =>
        if code != Unavailable then outcome == Failure(MapError(code, unsupportedModel))
        else if |rpcs| == 2 then outcome == Failure(WorkerUnavailableError)
        else outcome in {Failure(WorkerUnavailableError), Failure(DeadlineExceededError),
                         Failure(NoHealthyWorkerError), Failure(GatewayAtCapacityError)}
  }

  /** A call in flight is on its first attempt, or on its second after an unavailable first, elsewhere. */
  predicate Proper(call: Call) {
    match call
    case InFlight(w, attempt, _, tried, rpcs) =>
      || (attempt == 1 && rpcs == [] && tried == {})
      || (attempt == 2 && |rpcs| == 1 && WasUnavailable(rpcs[0]) && tried == {rpcs[0].worker} && w != rpcs[0].worker)
    case Ended(outcome, rpcs) => Attempts(rpcs) && Explains(rpcs, outcome)
  }

  predicate ProperAt(s: State, c: nat) {
    c in s.calls ==> Proper(s.calls[c])
  }

  lemma DispatchProper(cfg: Config, order: seq<string>, s: State, c: nat, attempt: nat, deadline: real,
                       tried: set<string>, rpcs: seq<Rpc>)
    requires (attempt == 1 && rpcs == [] && tried == {})
          || (attempt == 2 && |rpcs| == 1 && WasUnavailable(rpcs[0]) && tried == {rpcs[0].worker})
    ensures
      var t := Dispatch(cfg, order, s, c, attempt, deadline, tried, rpcs);
      c in t.calls && Proper(t.calls[c]) && t.calls == s.calls[c := t.calls[c]]
  {
    SelectionMeaning(order, s.pool, cfg.cap, tried);
  }

  /** The two cases of handling a reply, told apart. */
  lemma DeliverRetries(cfg: Config, order: seq<string>, s: State, c: nat, reply: Reply, lag: Duration)
    requires c in s.calls && s.calls[c].InFlight?
    requires var call := s.calls[c];
             WasUnavailable(Rpc(call.worker, reply)) && MayRetry(cfg, call.attempt, call.deadline, s.now)
    ensures
      var InFlight(w, attempt, deadline, tried, rpcs) := s.calls[c];
      var t := ReleaseNode(MarkWorker(cfg, s, w), w);
      DeliverStep(cfg, order, s, c, reply, lag)
      == Dispatch(cfg, order, t.(now := t.now + lag), c, attempt + 1, deadline, tried + {w}, rpcs + [Rpc(w, reply)])
  {}

  lemma DeliverProper(cfg: Config, order: seq<string>, s: State, c: nat, reply: Reply, lag: Duration)
    requires c in s.calls && s.calls[c].InFlight? && Proper(s.calls[c])
    ensures
      var t := DeliverStep(cfg, order, s, c, reply, lag);
      c in t.calls && Proper(t.calls[c]) && t.calls == s.calls[c := t.calls[c]]
  {
    var InFlight(w, attempt, deadline, tried, rpcs) := s.calls[c];
    var done := rpcs + [Rpc(w, reply)];
    if reply.Refused? && reply.code == Unavailable && MayRetry(cfg, attempt, deadline, s.now) {
      var t := ReleaseNode(MarkWorker(cfg, s, w), w);
      assert done == [Rpc(w, reply)] && tried + {w} == {w};
      DispatchProper(cfg, order, t.(now := t.now + lag), c, 2, deadline, {w}, done);
    }
  }

  lemma StepProper(cfg: Config, order: seq<string>, s: State, a: Action)
    requires forall c :: ProperAt(s, c)
    ensures forall c :: ProperAt(Step(cfg, order, s, a), c)
  {
    var t := Step(cfg, order, s, a);
    match a {
      case Begin(b, timeoutMs, lag) =>
        if b !in s.calls {
          DispatchProper(cfg, order, s.(now := s.now + lag), b, 1, DeadlineAfter(s.now, timeoutMs), {}, []);
        }
      case Deliver(b, reply, lag) =>
        if b in s.calls && s.calls[b].InFlight? {
          assert ProperAt(s, b);
          DeliverProper(cfg, order, s, b, reply, lag);
        }
      case _ =>
    }
    forall c
      ensures ProperAt(t, c)
    {
      assert ProperAt(s, c);
    }
  }

  lemma {:induction false} RunProper(cfg: Config, order: seq<string>, s: State, actions: seq<Action>)
    requires forall c :: ProperAt(s, c)
    ensures forall c :: ProperAt(Run(cfg, order, s, actions), c)
    decreases |actions|
  {
    if actions != [] {
      var rest := actions[..|actions| - 1];
      RunProper(cfg, order, s, rest);
      StepProper(cfg, order, Run(cfg, order, s, rest), actions[|actions| - 1]);
    }
  }

  /**
   The retry protocol in every reachable state: at most two remote calls for a prediction, the
   second only after the first ended UNAVAILABLE and never on the same worker; a success reports
   the number of calls made and the worker that answered; every ended prediction has the one
   outcome its calls explain.
   */
  lemma {:induction false} RetryProtocol(cfg: Config, order: seq<string>, now: real, actions: seq<Action>, c: nat)
    requires c in Run(cfg, order, Initial(order, now), actions).calls
    ensures Proper(Run(cfg, order, Initial(order, now), actions).calls[c])
  {
    RunProper(cfg, order, Initial(order, now), actions);
    assert ProperAt(Run(cfg, order, Initial(order, now), actions), c);
  }

  /** An ended prediction stays as it ended. */
  lemma {:induction false} OutcomesAreFinal(cfg: Config, order: seq<string>, s: State, actions: seq<Action>, c: nat)
    requires c in s.calls && s.calls[c].Ended?
    ensures var t := Run(cfg, order, s, actions); c in t.calls && t.calls[c] == s.calls[c]
    decreases |actions|
  {
    if actions != [] {
      var rest, a := actions[..|actions| - 1], actions[|actions| - 1];
      OutcomesAreFinal(cfg, order, s, rest, c);
      StepTouchesOneCall(cfg, order, Run(cfg, order, s, rest), a, c);
    }
  }

  lemma StepTouchesOneCall(cfg: Config, order: seq<string>, s: State, a: Action, c: nat)
    requires c in s.calls && s.calls[c].Ended?
    ensures var t := Step(cfg, order, s, a); c in t.calls && t.calls[c] == s.calls[c]
  {}

  // ----- exclusion and capacity -----

  /** Some worker is healthy and every healthy worker is at its cap. */
  ghost predicate Saturated(order: seq<string>, nodes: map<string, Node>, cap: int) {
    && (exists w :: w in order && IsHealthy(nodes, w))
    && (forall w :: w in order && IsHealthy(nodes, w) ==> Load(nodes, w) >= cap)
  }

  /** When a retry selects, the worker that failed is not healthy, so excluding it changes nothing. */
  lemma ExclusionIsRedundant(cfg: Config, order: seq<string>, s: State, w: string)
    ensures
      var t := ReleaseNode(MarkWorker(cfg, s, w), w);
      !IsHealthy(t.pool.nodes, w) && Select(order, t.pool, cfg.cap, {w}) == Select(order, t.pool, cfg.cap, {})
  {
    var t := ReleaseNode(MarkWorker(cfg, s, w), w);
    assert !IsHealthy(t.pool.nodes, w);
    SelectableMembers(order, t.pool.nodes, cfg.cap, {});
    SameRoom(t.pool.nodes, cfg.cap, w, HealthyIds(order, t.pool.nodes));
  }

  lemma {:induction false} SameRoom(nodes: map<string, Node>, cap: int, w: string, ids: seq<string>)
    requires w !in ids
    ensures Filter(HasRoom(nodes, cap, {w}), ids) == Filter(HasRoom(nodes, cap, {}), ids)
  {
    if ids != [] {
      assert ids[0] in ids;
      SameRoom(nodes, cap, w, ids[1..]);
    }
  }

  lemma UnrestrictedCapacity(order: seq<string>, pool: Pool, cap: int)
    ensures Select(order, pool, cap, {}) == AtCapacity <==> Saturated(order, pool.nodes, cap)
  {
    SelectionMeaning(order, pool, cap, {});
  }

  /** The states from which a step of call c selects, with the exclusions it selects under. */
  ghost predicate Selecting(cfg: Config, s: State, a: Action, u: State, c: nat, deadline: real) {
    match a
    case Begin(b, timeoutMs, lag) =>
      b == c && c !in s.calls && u == s.(now := s.now + lag) && deadline == DeadlineAfter(s.now, timeoutMs)
    case Deliver(b, reply, lag) =>
      && b == c && c in s.calls && s.calls[c].InFlight? && Proper(s.calls[c])
      && WasUnavailable(Rpc(s.calls[c].worker, reply)) && MayRetry(cfg, s.calls[c].attempt, s.calls[c].deadline, s.now)
      && deadline == s.calls[c].deadline
      && var t := ReleaseNode(MarkWorker(cfg, s, s.calls[c].worker), s.calls[c].worker); u == t.(now := t.now + lag)
    case _ => false
  }

  /**
   GATEWAY_AT_CAPACITY, on either attempt: a prediction that reaches a selection within its deadline
   ends with it exactly when some worker is healthy and every healthy worker is at its cap.
   */
  lemma AtCapacityMeansSaturated(cfg: Config, order: seq<string>, s: State, a: Action, u: State, c: nat, deadline: real)
    requires Selecting(cfg, s, a, u, c, deadline) && u.now < deadline
    ensures
      var t := Step(cfg, order, s, a);
      && c in t.calls
      && ((t.calls[c].Ended? && t.calls[c].outcome == Failure(GatewayAtCapacityError))
            <==> Saturated(order, u.pool.nodes, cfg.cap))
  {
    UnrestrictedCapacity(order, u.pool, cfg.cap);
    if a.Deliver? {
      var InFlight(w, attempt, _, tried, rpcs) := s.calls[c];
      ExclusionIsRedundant(cfg, order, s, w);
      assert tried + {w} == {w};
    }
  }

  // ----- each worker's health follows its own events -----

  /** What a step of the gateway means for the health of worker w. */
  function EventsOf(cfg: Config, s: State, a: Action, w: string): seq<Event> {
    match a
    case ProbeWorker(v, report) => if v == w then [Probe(Judge(cfg.expected, report))] else []
    case Deliver(c, reply, _) =>
      if c in s.calls && s.calls[c].InFlight? && s.calls[c].worker == w && WasUnavailable(Rpc(w, reply)) then [Mark] else []
    case _ => []
  }

  function Trace(cfg: Config, order: seq<string>, s: State, actions: seq<Action>, w: string): seq<Event>
    decreases |actions|
  {
    if actions == [] then []
    else
      var rest := actions[..|actions| - 1];
      Trace(cfg, order, s, rest, w) + EventsOf(cfg, Run(cfg, order, s, rest), actions[|actions| - 1], w)
  }

  /** Every node is still there, with the health its events give it. */
  ghost predicate HealthMoves(cfg: Config, s: State, t: State, w: string, events: seq<Event>) {
    w in s.pool.nodes ==>
      w in t.pool.nodes && t.pool.nodes[w].health == After(cfg.thresholds, s.pool.nodes[w].health, events)
  }

  lemma OneEvent(th: Thresholds, h: Health, e: Event)
    ensures After(th, h, [e]) == Next(th, h, e)
  {
    assert [e][..0] == [];
  }

  lemma DispatchKeepsHealth(cfg: Config, order: seq<string>, s: State, c: nat, attempt: nat, deadline: real,
                            tried: set<string>, rpcs: seq<Rpc>, w: string)
    ensures
      var t := Dispatch(cfg, order, s, c, attempt, deadline, tried, rpcs);
      w in s.pool.nodes ==> w in t.pool.nodes && t.pool.nodes[w].health == s.pool.nodes[w].health
  {}

  lemma DeliverMovesHealth(cfg: Config, order: seq<string>, s: State, c: nat, reply: Reply, lag: Duration, w: string)
    requires c in s.calls && s.calls[c].InFlight?
    ensures HealthMoves(cfg, s, DeliverStep(cfg, order, s, c, reply, lag), w, EventsOf(cfg, s, Deliver(c, reply, lag), w))
  {
    var InFlight(v, attempt, deadline, tried, rpcs) := s.calls[c];
    if WasUnavailable(Rpc(v, reply)) {
      var t := ReleaseNode(MarkWorker(cfg, s, v), v);
      if w in s.pool.nodes { OneEvent(cfg.thresholds, s.pool.nodes[w].health, Mark); }
      assert HealthMoves(cfg, s, t, w, EventsOf(cfg, s, Deliver(c, reply, lag), w));
      if MayRetry(cfg, attempt, deadline, s.now) {
        DispatchKeepsHealth(cfg, order, t.(now := t.now + lag), c, attempt + 1, deadline, tried + {v}, rpcs + [Rpc(v, reply)], w);
      }
    }
  }

  lemma StepMovesHealth(cfg: Config, order: seq<string>, s: State, a: Action, w: string)
    ensures HealthMoves(cfg, s, Step(cfg, order, s, a), w, EventsOf(cfg, s, a, w))
  {
    match a
    case Tick(_) =>
    case ProbeWorker(v, report) =>
      if w in s.pool.nodes { OneEvent(cfg.thresholds, s.pool.nodes[w].health, Probe(Judge(cfg.expected, report))); }
    case Begin(c, timeoutMs, lag) =>
      if c !in s.calls {
        DispatchKeepsHealth(cfg, order, s.(now := s.now + lag), c, 1, DeadlineAfter(s.now, timeoutMs), {}, [], w);
      }
    case Deliver(c, reply, lag) =>
      if c in s.calls && s.calls[c].InFlight? { DeliverMovesHealth(cfg, order, s, c, reply, lag, w); }
  }

  /** Over any run, a worker's health is that of the health state machine on the worker's own events. */
  lemma {:induction false} HealthFollowsTrace(cfg: Config, order: seq<string>, s: State, actions: seq<Action>, w: string)
    ensures HealthMoves(cfg, s, Run(cfg, order, s, actions), w, Trace(cfg, order, s, actions, w))
    decreases |actions|
  {
    if actions != [] && w in s.pool.nodes {
      var rest, a := actions[..|actions| - 1], actions[|actions| - 1];
      var u := Run(cfg, order, s, rest);
      HealthFollowsTrace(cfg, order, s, rest, w);
      StepMovesHealth(cfg, order, u, a, w);
      AfterConcat(cfg.thresholds, s.pool.nodes[w].health, Trace(cfg, order, s, rest, w), EventsOf(cfg, u, a, w));
    }
  }

  /**
   Handling a reply turns a healthy worker unhealthy exactly when the reply was UNAVAILABLE and came
   from that worker; in particular FAILED_PRECONDITION does not.
   */
  lemma RepliesEjectExactly(cfg: Config, order: seq<string>, s: State, c: nat, reply: Reply, lag: Duration, w: string)
    requires c in s.calls && s.calls[c].InFlight? && IsHealthy(s.pool.nodes, w)
    ensures
      !IsHealthy(DeliverStep(cfg, order, s, c, reply, lag).pool.nodes, w)
      <==> s.calls[c].worker == w && WasUnavailable(Rpc(w, reply))
  {
    StepMovesHealth(cfg, order, s, Deliver(c, reply, lag), w);
    OneEvent(cfg.thresholds, s.pool.nodes[w].health, Mark);
  }

  /**
   An UNAVAILABLE reply leaves its worker unhealthy exactly when the worker was healthy or unhealthy
   before: a starting or draining worker takes no notice.
   */
  lemma MarkedUnhealthyExactly(cfg: Config, order: seq<string>, s: State, c: nat, reply: Reply, lag: Duration)
    requires c in s.calls && s.calls[c].InFlight? && s.calls[c].worker in s.pool.nodes
    requires WasUnavailable(Rpc(s.calls[c].worker, reply))
    ensures
      var w, t := s.calls[c].worker, DeliverStep(cfg, order, s, c, reply, lag);
      && w in t.pool.nodes
      && (t.pool.nodes[w].health.state == Unhealthy <==> s.pool.nodes[w].health.state in {Healthy, Unhealthy})
  {
    var w := s.calls[c].worker;
    StepMovesHealth(cfg, order, s, Deliver(c, reply, lag), w);
    OneEvent(cfg.thresholds, s.pool.nodes[w].health, Mark);
  }

  // ----- isolation -----

  /** The step puts some call on worker w. */
  ghost predicate Selects(s: State, t: State, w: string) {
    exists c :: NewlyOn(s, t, w, c)
  }

  predicate NewlyOn(s: State, t: State, w: string, c: nat) {
    && c in t.calls && t.calls[c].InFlight? && t.calls[c].worker == w
    && (c !in s.calls || s.calls[c] != t.calls[c])
  }

  lemma DispatchSelectsHealthy(cfg: Config, order: seq<string>, s: State, c: nat, attempt: nat, deadline: real,
                               tried: set<string>, rpcs: seq<Rpc>)
    ensures
      var t := Dispatch(cfg, order, s, c, attempt, deadline, tried, rpcs);
      c in t.calls && (t.calls[c].InFlight? ==> IsHealthy(t.pool.nodes, t.calls[c].worker))
  {
    SelectionMeaning(order, s.pool, cfg.cap, tried);
  }

  lemma DeliverSelectsHealthy(cfg: Config, order: seq<string>, s: State, c: nat, reply: Reply, lag: Duration)
    requires c in s.calls && s.calls[c].InFlight?
    ensures
      var t := DeliverStep(cfg, order, s, c, reply, lag);
      c in t.calls && (t.calls[c].InFlight? ==> IsHealthy(t.pool.nodes, t.calls[c].worker))
  {
    var InFlight(w, attempt, deadline, tried, rpcs) := s.calls[c];
    var u := ReleaseNode(MarkWorker(cfg, s, w), w);
    DispatchSelectsHealthy(cfg, order, u.(now := u.now + lag), c, attempt + 1, deadline, tried + {w}, rpcs + [Rpc(w, reply)]);
  }

  /** A step changes the call it is about and no other. */
  lemma OtherCallsKept(cfg: Config, order: seq<string>, s: State, a: Action, d: nat)
    requires !(a.Begin? && a.call == d && d !in s.calls)
    requires !(a.Deliver? && a.call == d && d in s.calls && s.calls[d].InFlight?)
    ensures var t := Step(cfg, order, s, a); (d in t.calls <==> d in s.calls) && (d in s.calls ==> t.calls[d] == s.calls[d])
  {}

  /** Whoever is selected is healthy. */
  lemma SelectedIsHealthy(cfg: Config, order: seq<string>, s: State, a: Action, w: string)
    requires Selects(s, Step(cfg, order, s, a), w)
    ensures IsHealthy(Step(cfg, order, s, a).pool.nodes, w)
  {
    var t := Step(cfg, order, s, a);
    var d :| NewlyOn(s, t, w, d);
    if a.Begin? && a.call == d && d !in s.calls {
      DispatchSelectsHealthy(cfg, order, s.(now := s.now + a.lag), d, 1, DeadlineAfter(s.now, a.timeoutMs), {}, []);
    } else if a.Deliver? && a.call == d && d in s.calls && s.calls[d].InFlight? {
      DeliverSelectsHealthy(cfg, order, s, d, a.reply, a.lag);
    } else {
      OtherCallsKept(cfg, order, s, a, d);
    }
  }

  /**
   Isolation of an ejected worker: after a step that turns w from healthy to unhealthy, be it a mark
   or a failed probe, no prediction is put on w until at least `recovery` probe results in a row,
   all received since, were compatible.
   */
  lemma EjectedWorkerIsIsolated(cfg: Config, order: seq<string>, s: State, a: Action, actions: seq<Action>, w: string)
    requires IsHealthy(s.pool.nodes, w) && !IsHealthy(Step(cfg, order, s, a).pool.nodes, w)
    requires Step(cfg, order, s, a).pool.nodes[w].health.state == Unhealthy
    requires actions != []
    requires
      var t := Step(cfg, order, s, a);
      var u := Run(cfg, order, t, actions[..|actions| - 1]);
      Selects(u, Step(cfg, order, u, actions[|actions| - 1]), w)
    ensures
      HadStreak(Verdicts(Trace(cfg, order, Step(cfg, order, s, a), actions, w)), cfg.thresholds.recovery)
  {
    var t := Step(cfg, order, s, a);
    EjectionResets(cfg, order, s, a, w);
    HealthFollowsTrace(cfg, order, t, actions, w);
    SelectedIsHealthy(cfg, order, Run(cfg, order, t, actions[..|actions| - 1]), actions[|actions| - 1], w);
    RecoveryNeedsAStreak(cfg.thresholds, t.pool.nodes[w].health, Trace(cfg, order, t, actions, w));
  }

  lemma EjectionResets(cfg: Config, order: seq<string>, s: State, a: Action, w: string)
    requires IsHealthy(s.pool.nodes, w)
    ensures
      var t := Step(cfg, order, s, a);
      w in t.pool.nodes && (t.pool.nodes[w].health.state == Unhealthy ==> t.pool.nodes[w].health.successes == 0)
  {
    StepMovesHealth(cfg, order, s, a, w);
    var h, events := s.pool.nodes[w].health, EventsOf(cfg, s, a, w);
    if events != [] { OneEvent(cfg.thresholds, h, events[0]); }
  }

  /** A worker that has reported DRAINING is never selected again in that run. */
  lemma {:induction false} DrainingWorkerIsNeverSelected(cfg: Config, order: seq<string>, s: State, actions: seq<Action>, a: Action, w: string)
    requires w in s.pool.nodes && s.pool.nodes[w].health.state == Draining
    ensures var u := Run(cfg, order, s, actions); !Selects(u, Step(cfg, order, u, a), w)
  {
    var u := Run(cfg, order, s, actions);
    HealthFollowsTrace(cfg, order, s, actions, w);
    DrainingIsFinal(cfg.thresholds, s.pool.nodes[w].health, Trace(cfg, order, s, actions, w));
    StepMovesHealth(cfg, order, u, a, w);
    DrainingIsFinal(cfg.thresholds, u.pool.nodes[w].health, EventsOf(cfg, u, a, w));
    if Selects(u, Step(cfg, order, u, a), w) {
      SelectedIsHealthy(cfg, order, u, a, w);
    }
  }
}
