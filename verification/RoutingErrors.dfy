/**
 Which attempt leads to which error: when a second call goes out, what an UNAVAILABLE reply ends
 with, and what an error tells the caller.
 */
module RoutingErrors {
  import opened Clock
  import opened WorkerHealth
  import opened Scheduling
  import opened Routing
  import opened RoutingProtocol

  // ----- how a prediction begins -----

  predicate HealthyOne(order: seq<string>, nodes: map<string, Node>, w: string) {
    w in order && w in nodes && nodes[w].health.state == Healthy
  }

  lemma FirstSelection(order: seq<string>, pool: Pool, cap: int)
    ensures
      var sel := Select(order, pool, cap, {});
      && (sel.Selected? <==> exists w :: Available(order, pool.nodes, cap, {}, w))
      && (sel == NoHealthyWorker <==> !exists w :: HealthyOne(order, pool.nodes, w))
  {
    SelectedIfAvailable(order, pool, cap, {});
    SelectionMeaning(order, pool, cap, {});
    match Select(order, pool, cap, {})
    case NoHealthyWorker =>
    case AtCapacity =>
      var w :| w in order && IsHealthy(pool.nodes, w);
      assert HealthyOne(order, pool.nodes, w);
    case Selected(w, _) => assert HealthyOne(order, pool.nodes, w);
  }

  /** The prediction has ended with this error. */
  predicate EndsWith(s: State, c: nat, error: Error) {
    c in s.calls && s.calls[c].Ended? && s.calls[c].outcome == Failure(error)
  }

  /**
   What beginning a prediction comes to: its call goes out exactly when time is left at the second
   look at the clock and some healthy worker has room; it ends with DEADLINE_EXCEEDED exactly when no
   time is left, with NO_HEALTHY_WORKER exactly when time is left and no worker is healthy, and with
   GATEWAY_AT_CAPACITY exactly when time is left, some worker is healthy and no healthy one has room.
   */
  lemma BeginErrorsExactly(cfg: Config, order: seq<string>, s: State, c: nat, timeoutMs: int, lag: Duration)
    requires c !in s.calls
    ensures
      var nodes, t := s.pool.nodes, Step(cfg, order, s, Begin(c, timeoutMs, lag));
      var inTime := lag * 1000.0 < timeoutMs as real;
      && c in t.calls
      && (t.calls[c].InFlight? <==> inTime && exists w :: Available(order, nodes, cfg.cap, {}, w))
      && (EndsWith(t, c, DeadlineExceededError) <==> !inTime)
      && (EndsWith(t, c, NoHealthyWorkerError) <==> inTime && !exists w :: HealthyOne(order, nodes, w))
      && (EndsWith(t, c, GatewayAtCapacityError) <==>
            && inTime
            && (exists w :: HealthyOne(order, nodes, w))
            && !exists w :: Available(order, nodes, cfg.cap, {}, w))
  {
    FirstSelection(order, s.pool, cfg.cap);
  }

  // ----- the deadline of a prediction -----

  /** The k-th action began prediction c, and `deadline` is its timeout later. */
  predicate BegunAt(cfg: Config, order: seq<string>, s: State, actions: seq<Action>, k: nat, c: nat, deadline: real) {
    && k < |actions| && actions[k].Begin? && actions[k].call == c
    && var u := Run(cfg, order, s, actions[..k]);
       c !in u.calls && (deadline - u.now) * 1000.0 == actions[k].timeoutMs as real
  }

  lemma DeadlineKept(cfg: Config, order: seq<string>, s: State, a: Action, c: nat)
    ensures
      var t := Step(cfg, order, s, a);
      c in t.calls && t.calls[c].InFlight? ==>
        || (c in s.calls && s.calls[c].InFlight? && t.calls[c].deadline == s.calls[c].deadline)
        || (a.Begin? && a.call == c && c !in s.calls && (t.calls[c].deadline - s.now) * 1000.0 == a.timeoutMs as real)
  {
    if a.Deliver? && a.call == c && c in s.calls && s.calls[c].InFlight? {
      DeliverKeepsDeadline(cfg, order, s, c, a.reply, a.lag);
    } else if !(a.Begin? && a.call == c && c !in s.calls) {
      OtherCallsKept(cfg, order, s, a, c);
    }
  }

  lemma DeliverKeepsDeadline(cfg: Config, order: seq<string>, s: State, c: nat, reply: Reply, lag: Duration)
    requires c in s.calls && s.calls[c].InFlight?
    ensures
      var t := DeliverStep(cfg, order, s, c, reply, lag);
      c in t.calls && (t.calls[c].InFlight? ==> t.calls[c].deadline == s.calls[c].deadline)
  {}

  /** In every reachable state the deadline of a call in flight, first or second, is its timeout after its prediction began. */
  lemma {:induction false} DeadlineOfCall(cfg: Config, order: seq<string>, now: real, actions: seq<Action>, c: nat)
    requires var t := Run(cfg, order, Initial(order, now), actions); c in t.calls && t.calls[c].InFlight?
    ensures
      var start := Initial(order, now);
      exists k: nat :: BegunAt(cfg, order, start, actions, k, c, Run(cfg, order, start, actions).calls[c].deadline)
    decreases |actions|
  {
    var start, rest, a := Initial(order, now), actions[..|actions| - 1], actions[|actions| - 1];
    var u, t := Run(cfg, order, start, rest), Run(cfg, order, start, actions);
    DeadlineKept(cfg, order, u, a, c);
    if c in u.calls && u.calls[c].InFlight? && t.calls[c].deadline == u.calls[c].deadline {
      DeadlineOfCall(cfg, order, now, rest, c);
      var k: nat :| BegunAt(cfg, order, start, rest, k, c, u.calls[c].deadline);
      assert rest[..k] == actions[..k];
      assert BegunAt(cfg, order, start, actions, k, c, t.calls[c].deadline);
    } else {
      assert BegunAt(cfg, order, start, actions, |rest|, c, t.calls[c].deadline);
    }
  }

  // ----- when a second call is made -----

  /** A worker other than the one that failed is healthy and has room. */
  predicate Alternative(cfg: Config, order: seq<string>, nodes: map<string, Node>, failed: string, w: string) {
    w in order && w != failed && IsHealthy(nodes, w) && Load(nodes, w) < cfg.cap
  }

  lemma MarkedReleaseKeepsOthers(cfg: Config, order: seq<string>, s: State, failed: string, w: string)
    ensures
      var t := ReleaseNode(MarkWorker(cfg, s, failed), failed);
      Alternative(cfg, order, t.pool.nodes, failed, w) <==> Alternative(cfg, order, s.pool.nodes, failed, w)
  {}

  /** A dispatch that excludes one worker puts the call in flight exactly when time is left and another worker will do. */
  lemma DispatchExactly(cfg: Config, order: seq<string>, s: State, c: nat, attempt: nat, deadline: real,
                        failed: string, rpcs: seq<Rpc>)
    ensures
      var t := Dispatch(cfg, order, s, c, attempt, deadline, {failed}, rpcs);
      && c in t.calls
      && (t.calls[c].InFlight? <==> s.now < deadline && exists w :: Alternative(cfg, order, s.pool.nodes, failed, w))
  {
    SelectionMeaning(order, s.pool, cfg.cap, {failed});
    match Select(order, s.pool, cfg.cap, {failed})
    case Selected(w, _) => assert Alternative(cfg, order, s.pool.nodes, failed, w);
    case _ =>
  }

  /**
   After a reply a second call goes out exactly when the first came back UNAVAILABLE, the retry budget is
   left, the deadline has not passed at the second look at the clock, and another healthy worker has room.
   */
  lemma RetryHappensExactly(cfg: Config, order: seq<string>, s: State, c: nat, reply: Reply, lag: Duration)
    requires c in s.calls && s.calls[c].InFlight? && Proper(s.calls[c])
    ensures
      var call, t := s.calls[c], DeliverStep(cfg, order, s, c, reply, lag);
      && c in t.calls
      && (t.calls[c].InFlight? <==>
            && call.attempt == 1 && WasUnavailable(Rpc(call.worker, reply))
            && (call.deadline - s.now) * 1000.0 >= cfg.minRetryBudgetMs as real
            && s.now + lag < call.deadline
            && exists w :: Alternative(cfg, order, s.pool.nodes, call.worker, w))
  {
    var InFlight(failed, attempt, deadline, tried, rpcs) := s.calls[c];
    if WasUnavailable(Rpc(failed, reply)) && MayRetry(cfg, attempt, deadline, s.now) {
      var t := ReleaseNode(MarkWorker(cfg, s, failed), failed);
      DeliverRetries(cfg, order, s, c, reply, lag);
      assert tried + {failed} == {failed};
      DispatchExactly(cfg, order, t.(now := t.now + lag), c, 2, deadline, failed, rpcs + [Rpc(failed, reply)]);
      forall w
        ensures Alternative(cfg, order, t.pool.nodes, failed, w) <==> Alternative(cfg, order, s.pool.nodes, failed, w)
      {
        MarkedReleaseKeepsOthers(cfg, order, s, failed, w);
      }
    }
  }

  // ----- which worker is called -----

  /** The call went to the tied worker at the cursor, and the cursor moved one place on among them. */
  ghost predicate CalledInTurn(order: seq<string>, before: Pool, cap: int, exclude: set<string>, ring: seq<string>,
                               t: State, c: nat)
  {
    && IsTieRing(order, before.nodes, cap, exclude, ring) && |ring| > 0
    && c in t.calls && t.calls[c].InFlight?
    && t.calls[c].worker == ring[before.cursor % |ring|]
    && t.pool.cursor == (before.cursor + 1) % |ring|
  }

  lemma DispatchInTurn(cfg: Config, order: seq<string>, s: State, c: nat, attempt: nat, deadline: real,
                       tried: set<string>, rpcs: seq<Rpc>) returns (ring: seq<string>)
    requires var t := Dispatch(cfg, order, s, c, attempt, deadline, tried, rpcs); t.calls[c].InFlight?
    ensures CalledInTurn(order, s.pool, cfg.cap, tried, ring, Dispatch(cfg, order, s, c, attempt, deadline, tried, rpcs), c)
  {
    ring := TieRing(order, s.pool.nodes, cfg.cap, tried);
    SelectionRotates(order, s.pool, cfg.cap, tried);
  }

  /** A first call goes to the healthy workers with room and the least load in turn. */
  lemma FirstCallsGoInTurn(cfg: Config, order: seq<string>, s: State, c: nat, timeoutMs: int, lag: Duration)
    requires c !in s.calls && Step(cfg, order, s, Begin(c, timeoutMs, lag)).calls[c].InFlight?
    ensures exists ring :: CalledInTurn(order, s.pool, cfg.cap, {}, ring, Step(cfg, order, s, Begin(c, timeoutMs, lag)), c)
  {
    var ring := DispatchInTurn(cfg, order, s.(now := s.now + lag), c, 1, DeadlineAfter(s.now, timeoutMs), {}, []);
  }

  lemma SameTies(cfg: Config, order: seq<string>, s: State, failed: string, ring: seq<string>)
    requires IsTieRing(order, ReleaseNode(MarkWorker(cfg, s, failed), failed).pool.nodes, cfg.cap, {failed}, ring)
    ensures IsTieRing(order, s.pool.nodes, cfg.cap, {failed}, ring)
  {
    var nodes, after := s.pool.nodes, ReleaseNode(MarkWorker(cfg, s, failed), failed).pool.nodes;
    forall w
      ensures Available(order, after, cfg.cap, {failed}, w) <==> Available(order, nodes, cfg.cap, {failed}, w)
      ensures Available(order, nodes, cfg.cap, {failed}, w) ==> after[w].outstanding == nodes[w].outstanding
    {
      assert w != failed ==> (w in after <==> w in nodes) && (w in nodes ==> after[w] == nodes[w]);
    }
    forall w
      ensures Tied(order, after, cfg.cap, {failed}, w) <==> Tied(order, nodes, cfg.cap, {failed}, w)
    {}
  }

  /** A second call goes to the other healthy workers with room and the least load in turn. */
  lemma RetriesGoInTurn(cfg: Config, order: seq<string>, s: State, c: nat, reply: Reply, lag: Duration)
    requires c in s.calls && s.calls[c].InFlight? && Proper(s.calls[c])
    requires var t := DeliverStep(cfg, order, s, c, reply, lag); c in t.calls && t.calls[c].InFlight?
    ensures exists ring ::
              CalledInTurn(order, s.pool, cfg.cap, {s.calls[c].worker}, ring, DeliverStep(cfg, order, s, c, reply, lag), c)
  {
    var InFlight(failed, attempt, deadline, tried, rpcs) := s.calls[c];
    var t := ReleaseNode(MarkWorker(cfg, s, failed), failed);
    RetryHappensExactly(cfg, order, s, c, reply, lag);
    DeliverRetries(cfg, order, s, c, reply, lag);
    assert tried + {failed} == {failed};
    var ring := DispatchInTurn(cfg, order, t.(now := t.now + lag), c, 2, deadline, {failed}, rpcs + [Rpc(failed, reply)]);
    SameTies(cfg, order, s, failed, ring);
    assert CalledInTurn(order, s.pool, cfg.cap, {failed}, ring, DeliverStep(cfg, order, s, c, reply, lag), c);
  }

  // ----- which error a failed attempt leads to -----

  /** A worker other than the one that failed is healthy. */
  predicate OtherHealthy(order: seq<string>, nodes: map<string, Node>, failed: string, w: string) {
    w in order && w != failed && IsHealthy(nodes, w)
  }

  lemma MarkedReleaseKeepsHealthy(cfg: Config, order: seq<string>, s: State, failed: string, w: string)
    ensures
      var t := ReleaseNode(MarkWorker(cfg, s, failed), failed);
      && !IsHealthy(t.pool.nodes, failed)
      && (w != failed ==> IsHealthy(t.pool.nodes, w) == IsHealthy(s.pool.nodes, w))
  {}

  /** What the selection of a retry comes to, in terms of the workers before the mark. */
  lemma RetrySelection(cfg: Config, order: seq<string>, s: State, failed: string)
    ensures
      var t := ReleaseNode(MarkWorker(cfg, s, failed), failed);
      var sel := Select(order, t.pool, cfg.cap, {failed});
      && (sel.Selected? <==> exists w :: Alternative(cfg, order, s.pool.nodes, failed, w))
      && (sel == NoHealthyWorker <==> !exists w :: OtherHealthy(order, s.pool.nodes, failed, w))
  {
    var t := ReleaseNode(MarkWorker(cfg, s, failed), failed);
    SelectionMeaning(order, t.pool, cfg.cap, {failed});
    forall w
      ensures Alternative(cfg, order, t.pool.nodes, failed, w) <==> Alternative(cfg, order, s.pool.nodes, failed, w)
      ensures w in order && IsHealthy(t.pool.nodes, w) <==> OtherHealthy(order, s.pool.nodes, failed, w)
    {
      MarkedReleaseKeepsOthers(cfg, order, s, failed, w);
      MarkedReleaseKeepsHealthy(cfg, order, s, failed, w);
    }
    match Select(order, t.pool, cfg.cap, {failed})
    case Selected(w, _) => assert Alternative(cfg, order, t.pool.nodes, failed, w);
    case _ =>
  }

  /**
   An UNAVAILABLE reply ends its prediction with WORKER_UNAVAILABLE exactly on the second attempt
   or without retry budget; with DEADLINE_EXCEEDED exactly when the budget is left and the deadline
   has passed at the second look at the clock; with NO_HEALTHY_WORKER exactly when a retry is due and
   no other worker is healthy; with GATEWAY_AT_CAPACITY exactly when a retry is due, some other
   worker is healthy, and all of those are full.
   */
  lemma UnavailableErrorsExactly(cfg: Config, order: seq<string>, s: State, c: nat, reply: Reply, lag: Duration)
    requires c in s.calls && s.calls[c].InFlight? && Proper(s.calls[c])
    requires WasUnavailable(Rpc(s.calls[c].worker, reply))
    ensures
      var call, nodes, t := s.calls[c], s.pool.nodes, DeliverStep(cfg, order, s, c, reply, lag);
      var retry := call.attempt == 1 && (call.deadline - s.now) * 1000.0 >= cfg.minRetryBudgetMs as real;
      var inTime := s.now + lag < call.deadline;
      && (EndsWith(t, c, WorkerUnavailableError) <==> !retry)
      && (EndsWith(t, c, DeadlineExceededError) <==> retry && !inTime)
      && (EndsWith(t, c, NoHealthyWorkerError) <==>
            retry && inTime && !exists w :: OtherHealthy(order, nodes, call.worker, w))
      && (EndsWith(t, c, GatewayAtCapacityError) <==>
            && retry && inTime
            && (exists w :: OtherHealthy(order, nodes, call.worker, w))
            && (forall w :: OtherHealthy(order, nodes, call.worker, w) ==> Load(nodes, w) >= cfg.cap))
  {
    var InFlight(failed, attempt, deadline, tried, rpcs) := s.calls[c];
    if MayRetry(cfg, attempt, deadline, s.now) {
      DeliverRetries(cfg, order, s, c, reply, lag);
      assert tried + {failed} == {failed};
      RetrySelection(cfg, order, s, failed);
      FullAlternatives(cfg, order, s.pool.nodes, failed);
    }
  }

  lemma FullAlternatives(cfg: Config, order: seq<string>, nodes: map<string, Node>, failed: string)
    ensures (!exists w :: Alternative(cfg, order, nodes, failed, w))
       <==> forall w :: OtherHealthy(order, nodes, failed, w) ==> Load(nodes, w) >= cfg.cap
  {
    forall w
      ensures Alternative(cfg, order, nodes, failed, w) <==> OtherHealthy(order, nodes, failed, w) && Load(nodes, w) < cfg.cap
    {}
  }

  /** One worker, one prediction, one transport failure. */
  function LoneFailure(cfg: Config, timeoutMs: int): seq<Action> {
    [ProbeWorker("w", Status(cfg.expected.modelVersion, cfg.expected.modelSha256, StateReady)),
     Begin(0, timeoutMs, 0.0), Deliver(0, Refused(Unavailable, false), 0.0)]
  }

  lemma SoleWorkerSelected(cfg: Config)
    requires cfg.cap > 0
    ensures
      var nodes := map["w" := Node(Health(Healthy, 0, 1), 0)];
      var sel := Select(["w"], Pool(nodes, 0), cfg.cap, {});
      sel.Selected? && sel.worker == "w" && sel.pool.nodes == nodes["w" := Node(Health(Healthy, 0, 1), 1)]
  {
    var nodes := map["w" := Node(Health(Healthy, 0, 1), 0)];
    SelectionMeaning(["w"], Pool(nodes, 0), cfg.cap, {});
    assert "w" in ["w"] && IsHealthy(nodes, "w");
  }

  lemma RunOneMore(cfg: Config, order: seq<string>, s: State, actions: seq<Action>, a: Action)
    ensures Run(cfg, order, s, actions + [a]) == Step(cfg, order, Run(cfg, order, s, actions), a)
  {
    assert (actions + [a])[..|actions|] == actions;
  }

  lemma SoleWorkerIsCalled(cfg: Config, now: real, timeoutMs: int)
    requires cfg.cap > 0 && timeoutMs > 0
    ensures
      var s := Run(cfg, ["w"], Initial(["w"], now), LoneFailure(cfg, timeoutMs)[..2]);
      && s.now == now && s.pool.nodes.Keys == {"w"} && 0 in s.calls
      && s.calls[0] == InFlight("w", 1, DeadlineAfter(now, timeoutMs), {}, [])
  {
    var order, tape := ["w"], LoneFailure(cfg, timeoutMs);
    RunOneMore(cfg, order, Initial(order, now), [], tape[0]);
    RunOneMore(cfg, order, Initial(order, now), [tape[0]], tape[1]);
    assert [] + [tape[0]] == [tape[0]] && [tape[0]] + [tape[1]] == tape[..2];
    var probed := Step(cfg, order, Initial(order, now), tape[0]);
    assert "w" in ["w"] && forall id :: id in ["w"] ==> id == "w";
    assert Initial(["w"], now).pool.nodes == map["w" := Node(NEW_WORKER, 0)];
    assert probed.pool == Pool(map["w" := Node(Health(Healthy, 0, 1), 0)], 0);
    SoleWorkerSelected(cfg);
  }

  /**
   A transport failure that no retry could make good, with all the time in the world, and the caller
   is told NO_HEALTHY_WORKER.
   */
  lemma TransportFailureReportedOtherwise(cfg: Config, now: real, timeoutMs: int)
    requires cfg.cap > 0 && timeoutMs > 0 && cfg.minRetryBudgetMs <= timeoutMs
    ensures EndsWith(Run(cfg, ["w"], Initial(["w"], now), LoneFailure(cfg, timeoutMs)), 0, NoHealthyWorkerError)
  {
    var tape := LoneFailure(cfg, timeoutMs);
    var s := Run(cfg, ["w"], Initial(["w"], now), tape[..2]);
    SoleWorkerIsCalled(cfg, now, timeoutMs);
    RunOneMore(cfg, ["w"], Initial(["w"], now), tape[..2], tape[2]);
    assert tape[..2] + [tape[2]] == tape;
    UnavailableErrorsExactly(cfg, ["w"], s, 0, Refused(Unavailable, false), 0.0);
    assert forall w :: w in ["w"] ==> w == "w";
  }

  /**
   What an ended prediction's error tells its caller about the last remote call: the worker's own
   refusals are passed on one to one, and the gateway's errors mean that nothing was called or that
   the call came back UNAVAILABLE or with the worker's own version of the error.
   */
  lemma {:induction false} ErrorsTellTheReply(cfg: Config, order: seq<string>, now: real, actions: seq<Action>, c: nat)
    requires var t := Run(cfg, order, Initial(order, now), actions); c in t.calls && t.calls[c].Ended?
    ensures
      var Ended(outcome, rpcs) := Run(cfg, order, Initial(order, now), actions).calls[c];
      && (outcome == Failure(WorkerQueueFullError) <==> LastRefused(rpcs, {ResourceExhausted}))
      && (outcome == Failure(InternalServerError) <==> LastRefused(rpcs, {Internal, OtherCode}))
      && (outcome == Failure(UnsupportedModelError) <==> LastCame(rpcs, Refused(InvalidArgument, true)))
      && (outcome == Failure(InvalidRequestError) <==> LastCame(rpcs, Refused(InvalidArgument, false)))
      && (outcome == Failure(WorkerUnavailableError) ==> LastRefused(rpcs, {FailedPrecondition, Unavailable}))
      && (outcome == Failure(DeadlineExceededError) ==> rpcs == [] || LastRefused(rpcs, {DeadlineExceeded, Unavailable}))
      && (outcome in {Failure(NoHealthyWorkerError), Failure(GatewayAtCapacityError)} ==>
            rpcs == [] || (|rpcs| == 1 && LastRefused(rpcs, {Unavailable})))
      && (outcome.Success? <==> LastCame(rpcs, Answered))
  {
    RetryProtocol(cfg, order, now, actions, c);
  }

  predicate LastCame(rpcs: seq<Rpc>, reply: Reply) {
    rpcs != [] && rpcs[|rpcs| - 1].reply == reply
  }

  predicate LastRefused(rpcs: seq<Rpc>, codes: set<Code>) {
    rpcs != [] && rpcs[|rpcs| - 1].reply.Refused? && rpcs[|rpcs| - 1].reply.code in codes
  }
}
