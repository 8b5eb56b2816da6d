/**
 The gateway's routing protocol as a state machine: any number of concurrent predictions, each with
 up to two attempts, interleaved with health probes.

 The program suspends a prediction only while its remote call is outstanding, so beginning a
 prediction and handling the reply of an attempt (with the mark, the release and the next
 selection) are single steps. Two clock readings inside one step may differ; `lag` is the time
 between them.
 */
module Routing {
  import opened Clock
  import opened WorkerHealth
  import opened Scheduling

  datatype Config = Config(cap: int, thresholds: Thresholds, expected: Expected, minRetryBudgetMs: int)

  datatype Code =
    | InvalidArgument | ResourceExhausted | FailedPrecondition | DeadlineExceeded | Internal | Unavailable | OtherCode

  /** How a remote call comes back; Interrupted stands for a cancellation or any other exception. */
  datatype Reply = Answered | Refused(code: Code, unsupportedModel: bool) | Interrupted

  datatype Error =
    | DeadlineExceededError | NoHealthyWorkerError | GatewayAtCapacityError | WorkerUnavailableError
    | UnsupportedModelError | InvalidRequestError | WorkerQueueFullError | InternalServerError

  datatype Outcome = Success(worker: string, attempts: nat) | Failure(error: Error) | Aborted

  datatype Rpc = Rpc(worker: string, reply: Reply)

  /** A prediction: waiting for its current attempt, or ended. `rpcs` are the attempts that came back. */
  datatype Call =
    | InFlight(worker: string, attempt: nat, deadline: real, tried: set<string>, rpcs: seq<Rpc>)
    | Ended(outcome: Outcome, rpcs: seq<Rpc>)

  datatype State = State(now: real, pool: Pool, calls: map<nat, Call>)

  datatype Action =
    | Tick(elapsed: Duration)
    | ProbeWorker(worker: string, report: Report)
    | Begin(call: nat, timeoutMs: int, lag: Duration)
    | Deliver(call: nat, reply: Reply, lag: Duration)

  function Initial(order: seq<string>, now: real): State {
    State(now, Pool(map id | id in order :: Node(NEW_WORKER, 0), 0), map[])
  }

  // ----- parts of a step -----

  function SetHealth(nodes: map<string, Node>, id: string, h: Health): map<string, Node> {
    if id in nodes then nodes[id := nodes[id].(health := h)] else nodes
  }

  function MarkNode(th: Thresholds, nodes: map<string, Node>, id: string): map<string, Node> {
    if id in nodes then SetHealth(nodes, id, MarkUnhealthy(th, nodes[id].health)) else nodes
  }

  function ProbeNode(cfg: Config, nodes: map<string, Node>, id: string, report: Report): map<string, Node> {
    if id in nodes then SetHealth(nodes, id, Observe(cfg.thresholds, nodes[id].health, Judge(cfg.expected, report)))
    else nodes
  }

  /** Each error names its cause: only the catch-all stands for more than one code. */
  function MapError(code: Code, unsupportedModel: bool): (e: Error)
    ensures e == UnsupportedModelError <==> code == InvalidArgument && unsupportedModel
    ensures e == InvalidRequestError <==> code == InvalidArgument && !unsupportedModel
    ensures e == WorkerQueueFullError <==> code == ResourceExhausted
    ensures e == WorkerUnavailableError <==> code == FailedPrecondition
    ensures e == DeadlineExceededError <==> code == DeadlineExceeded
    ensures e == InternalServerError <==> code in {Internal, Unavailable, OtherCode}
  {
    match code
    case InvalidArgument => if unsupportedModel then UnsupportedModelError else InvalidRequestError
    case ResourceExhausted => WorkerQueueFullError
    case FailedPrecondition => WorkerUnavailableError
    case DeadlineExceeded => DeadlineExceededError
    case _ => InternalServerError
  }

  function End(s: State, c: nat, outcome: Outcome, rpcs: seq<Rpc>): State {
    s.(calls := s.calls[c := Ended(outcome, rpcs)])
  }

  /** One pass through the head of the retry loop: the deadline check and the selection. */
  function Dispatch(cfg: Config, order: seq<string>, s: State, c: nat, attempt: nat, deadline: real,
                    tried: set<string>, rpcs: seq<Rpc>): State
  {
    if deadline - s.now <= 0.0 then End(s, c, Failure(DeadlineExceededError), rpcs)
    else
      match Select(order, s.pool, cfg.cap, tried)
      case NoHealthyWorker => End(s, c, Failure(NoHealthyWorkerError), rpcs)
      case AtCapacity => End(s, c, Failure(GatewayAtCapacityError), rpcs)
      case Selected(w, pool) => s.(pool := pool, calls := s.calls[c := InFlight(w, attempt, deadline, tried, rpcs)])
  }

  function ReleaseNode(s: State, w: string): State {
    s.(pool := s.pool.(nodes := Release(s.pool.nodes, w)))
  }

  function MarkWorker(cfg: Config, s: State, w: string): State {
    s.(pool := s.pool.(nodes := MarkNode(cfg.thresholds, s.pool.nodes, w)))
  }

  function DeadlineAfter(now: real, timeoutMs: int): real {
    now + timeoutMs as real / 1000.0
  }

  function BeginStep(cfg: Config, order: seq<string>, s: State, c: nat, timeoutMs: int, lag: Duration): State {
    if c in s.calls then s
    else Dispatch(cfg, order, s.(now := s.now + lag), c, 1, DeadlineAfter(s.now, timeoutMs), {}, [])
  }

  predicate MayRetry(cfg: Config, attempt: nat, deadline: real, now: real) {
    attempt == 1 && (deadline - now) * 1000.0 >= cfg.minRetryBudgetMs as real
  }

  function DeliverStep(cfg: Config, order: seq<string>, s: State, c: nat, reply: Reply, lag: Duration): State {
    if c !in s.calls || !s.calls[c].InFlight? then s
    else
      var InFlight(w, attempt, deadline, tried, rpcs) := s.calls[c];
      var done := rpcs + [Rpc(w, reply)];
      match reply
      case Answered => End(ReleaseNode(s, w), c, Success(w, attempt), done)
      case Interrupted => End(ReleaseNode(s, w), c, Aborted, done)
      case Refused(code, unsupportedModel) =>
        if code == Unavailable then
          var t := ReleaseNode(MarkWorker(cfg, s, w), w);
          if MayRetry(cfg, attempt, deadline, s.now)
          then Dispatch(cfg, order, t.(now := t.now + lag), c, attempt + 1, deadline, tried + {w}, done)
          else End(t, c, Failure(WorkerUnavailableError), done)
        else End(ReleaseNode(s, w), c, Failure(MapError(code, unsupportedModel)), done)
  }

  function Step(cfg: Config, order: seq<string>, s: State, a: Action): State {
    match a
    case Tick(elapsed) => s.(now := s.now + elapsed)
    case ProbeWorker(w, report) => s.(pool := s.pool.(nodes := ProbeNode(cfg, s.pool.nodes, w, report)))
    case Begin(c, timeoutMs, lag) => BeginStep(cfg, order, s, c, timeoutMs, lag)
    case Deliver(c, reply, lag) => DeliverStep(cfg, order, s, c, reply, lag)
  }

  function Run(cfg: Config, order: seq<string>, s: State, actions: seq<Action>): State
    decreases |actions|
  {
    if actions == [] then s
    else Step(cfg, order, Run(cfg, order, s, actions[..|actions| - 1]), actions[|actions| - 1])
  }

  lemma {:induction false} RunConcat(cfg: Config, order: seq<string>, s: State, first: seq<Action>, second: seq<Action>)
    ensures Run(cfg, order, s, first + second) == Run(cfg, order, Run(cfg, order, s, first), second)
    decreases |second|
  {
    if second == [] {
      assert first + second == first;
    } else {
      RunConcat(cfg, order, s, first, second[..|second| - 1]);
      assert (first + second)[..|first + second| - 1] == first + second[..|second| - 1];
    }
  }

  // ----- reservations are conserved -----

  /** The predictions that currently hold a reservation on w. */
  function Holders(calls: map<nat, Call>, w: string): set<nat> {
    set c | c in calls && calls[c].InFlight? && calls[c].worker == w
  }

  /** The worker's count is the number of its holders other than those in `but`, and within the cap. */
  predicate Counted(cfg: Config, s: State, but: set<nat>, w: string) {
    w in s.pool.nodes ==>
      && s.pool.nodes[w].outstanding == |Holders(s.calls, w) - but|
      && (s.pool.nodes[w].outstanding == 0 || s.pool.nodes[w].outstanding <= cfg.cap)
  }

  predicate Homed(s: State, c: nat) {
    c in s.calls && s.calls[c].InFlight? ==> s.calls[c].worker in s.pool.nodes
  }

  /** Every reservation belongs to one outstanding call; the calls in `but` have just released theirs. */
  ghost predicate ReservedBut(cfg: Config, s: State, but: set<nat>) {
    && (forall w :: Counted(cfg, s, but, w))
    && (forall c :: Homed(s, c))
  }

  ghost predicate Reserved(cfg: Config, s: State) {
    ReservedBut(cfg, s, {})
  }

  ghost predicate SameReservations(a: map<string, Node>, b: map<string, Node>) {
    a.Keys == b.Keys && forall w :: w in a ==> a[w].outstanding == b[w].outstanding
  }

  /** Health and time do not matter to reservations. */
  lemma HealthKeepsReserved(cfg: Config, s: State, t: State, but: set<nat>)
    requires ReservedBut(cfg, s, but)
    requires t.calls == s.calls && SameReservations(s.pool.nodes, t.pool.nodes)
    ensures ReservedBut(cfg, t, but)
  {
    forall w
      ensures Counted(cfg, t, but, w)
    {
      assert Counted(cfg, s, but, w);
      assert w in s.pool.nodes <==> w in t.pool.nodes;
    }
    forall c
      ensures Homed(t, c)
    {
      assert Homed(s, c);
      assert c in s.calls && s.calls[c].InFlight? ==>
               (s.calls[c].worker in s.pool.nodes <==> s.calls[c].worker in t.pool.nodes);
    }
  }

  lemma HoldersOf(calls: map<nat, Call>, c: nat, call: Call, w: string)
    ensures Holders(calls[c := call], w)
         == (Holders(calls, w) - {c}) + if call.InFlight? && call.worker == w then {c} else {}
  {}

  lemma ReleaseFreesOne(cfg: Config, s: State, c: nat)
    requires Reserved(cfg, s)
    requires c in s.calls && s.calls[c].InFlight?
    ensures s.calls[c].worker in s.pool.nodes && s.pool.nodes[s.calls[c].worker].outstanding > 0
    ensures ReservedBut(cfg, ReleaseNode(s, s.calls[c].worker), {c})
  {
    var w := s.calls[c].worker;
    var t := ReleaseNode(s, w);
    assert Homed(s, c) && Counted(cfg, s, {}, w);
    assert c in Holders(s.calls, w) - {};
    forall v
      ensures Counted(cfg, t, {c}, v)
    {
      assert Counted(cfg, s, {}, v);
      assert Holders(s.calls, v) - {} == Holders(s.calls, v);
      if v != w { assert Holders(s.calls, v) - {c} == Holders(s.calls, v); }
    }
    forall d
      ensures Homed(t, d)
    {
      assert Homed(s, d);
    }
  }

  lemma EndingReserves(cfg: Config, s: State, c: nat, outcome: Outcome, rpcs: seq<Rpc>)
    requires ReservedBut(cfg, s, {c})
    ensures Reserved(cfg, End(s, c, outcome, rpcs))
  {
    var t := End(s, c, outcome, rpcs);
    forall w
      ensures Counted(cfg, t, {}, w)
    {
      assert Counted(cfg, s, {c}, w);
      HoldersOf(s.calls, c, Ended(outcome, rpcs), w);
      assert Holders(t.calls, w) - {} == Holders(s.calls, w) - {c};
    }
    forall d
      ensures Homed(t, d)
    {
      assert Homed(s, d);
    }
  }

  lemma SelectingReserves(cfg: Config, s: State, c: nat, call: Call, pool: Pool)
    requires ReservedBut(cfg, s, {c})
    requires call.InFlight? && Load(s.pool.nodes, call.worker) < cfg.cap
    requires ReservesOn(s.pool.nodes, pool.nodes, call.worker)
    ensures Reserved(cfg, s.(pool := pool, calls := s.calls[c := call]))
  {
    var t := s.(pool := pool, calls := s.calls[c := call]);
    forall w
      ensures Counted(cfg, t, {}, w)
    {
      assert Counted(cfg, s, {c}, w);
      HoldersOf(s.calls, c, call, w);
      assert Holders(t.calls, w) - {} == Holders(t.calls, w);
    }
    forall d
      ensures Homed(t, d)
    {
      assert Homed(s, d);
    }
  }

  lemma DispatchReserves(cfg: Config, order: seq<string>, s: State, c: nat, attempt: nat, deadline: real,
                         tried: set<string>, rpcs: seq<Rpc>)
    requires ReservedBut(cfg, s, {c})
    ensures Reserved(cfg, Dispatch(cfg, order, s, c, attempt, deadline, tried, rpcs))
  {
    var sel := Select(order, s.pool, cfg.cap, tried);
    if deadline - s.now > 0.0 && sel.Selected? {
      SelectionMeaning(order, s.pool, cfg.cap, tried);
      SelectingReserves(cfg, s, c, InFlight(sel.worker, attempt, deadline, tried, rpcs), sel.pool);
    } else {
      var t := Dispatch(cfg, order, s, c, attempt, deadline, tried, rpcs);
      EndingReserves(cfg, s, c, t.calls[c].outcome, rpcs);
    }
  }

  lemma MarkCommutesWithRelease(cfg: Config, s: State, w: string)
    ensures SameReservations(ReleaseNode(s, w).pool.nodes, ReleaseNode(MarkWorker(cfg, s, w), w).pool.nodes)
  {}

  /** Marking and releasing at once, with time passing, frees the reservation like releasing alone. */
  lemma MarkedReleaseFreesOne(cfg: Config, s: State, c: nat, lag: Duration)
    requires Reserved(cfg, s)
    requires c in s.calls && s.calls[c].InFlight?
    ensures
      var t := ReleaseNode(MarkWorker(cfg, s, s.calls[c].worker), s.calls[c].worker);
      ReservedBut(cfg, t, {c}) && ReservedBut(cfg, t.(now := t.now + lag), {c})
  {
    var w := s.calls[c].worker;
    var t := ReleaseNode(MarkWorker(cfg, s, w), w);
    ReleaseFreesOne(cfg, s, c);
    MarkCommutesWithRelease(cfg, s, w);
    HealthKeepsReserved(cfg, ReleaseNode(s, w), t, {c});
    HealthKeepsReserved(cfg, ReleaseNode(s, w), t.(now := t.now + lag), {c});
  }

  lemma UnavailableReserves(cfg: Config, order: seq<string>, s: State, c: nat, unsupportedModel: bool, lag: Duration)
    requires Reserved(cfg, s)
    requires c in s.calls && s.calls[c].InFlight?
    ensures Reserved(cfg, DeliverStep(cfg, order, s, c, Refused(Unavailable, unsupportedModel), lag))
  {
    var InFlight(w, attempt, deadline, tried, rpcs) := s.calls[c];
    var done := rpcs + [Rpc(w, Refused(Unavailable, unsupportedModel))];
    MarkedReleaseFreesOne(cfg, s, c, lag);
    var t := ReleaseNode(MarkWorker(cfg, s, w), w);
    if MayRetry(cfg, attempt, deadline, s.now) {
      DispatchReserves(cfg, order, t.(now := t.now + lag), c, attempt + 1, deadline, tried + {w}, done);
    } else {
      EndingReserves(cfg, t, c, Failure(WorkerUnavailableError), done);
    }
  }

  lemma DeliverReserves(cfg: Config, order: seq<string>, s: State, c: nat, reply: Reply, lag: Duration)
    requires Reserved(cfg, s)
    requires c in s.calls && s.calls[c].InFlight?
    ensures Reserved(cfg, DeliverStep(cfg, order, s, c, reply, lag))
  {
    if reply.Refused? && reply.code == Unavailable {
      UnavailableReserves(cfg, order, s, c, reply.unsupportedModel, lag);
    } else {
      var InFlight(w, attempt, _, _, rpcs) := s.calls[c];
      ReleaseFreesOne(cfg, s, c);
      var outcome :=
        match reply
        case Answered => Success(w, attempt)
        case Interrupted => Aborted
        case Refused(code, unsupportedModel) => Failure(MapError(code, unsupportedModel));
      EndingReserves(cfg, ReleaseNode(s, w), c, outcome, rpcs + [Rpc(w, reply)]);
    }
  }

  lemma FreshCallHoldsNothing(cfg: Config, s: State, c: nat, lag: Duration)
    requires Reserved(cfg, s) && c !in s.calls
    ensures ReservedBut(cfg, s.(now := s.now + lag), {c})
  {
    forall w
      ensures Counted(cfg, s, {c}, w)
    {
      assert Counted(cfg, s, {}, w);
      assert Holders(s.calls, w) - {c} == Holders(s.calls, w) - {};
    }
    HealthKeepsReserved(cfg, s, s.(now := s.now + lag), {c});
  }

  lemma BeginReserves(cfg: Config, order: seq<string>, s: State, c: nat, timeoutMs: int, lag: Duration)
    requires Reserved(cfg, s) && c !in s.calls
    ensures Reserved(cfg, BeginStep(cfg, order, s, c, timeoutMs, lag))
  {
    FreshCallHoldsNothing(cfg, s, c, lag);
    DispatchReserves(cfg, order, s.(now := s.now + lag), c, 1, DeadlineAfter(s.now, timeoutMs), {}, []);
  }

  lemma StepReserves(cfg: Config, order: seq<string>, s: State, a: Action)
    requires Reserved(cfg, s)
    ensures Reserved(cfg, Step(cfg, order, s, a))
  {
    match a
    case Begin(c, timeoutMs, lag) => if c !in s.calls { BeginReserves(cfg, order, s, c, timeoutMs, lag); }
    case Deliver(c, reply, lag) => if c in s.calls && s.calls[c].InFlight? { DeliverReserves(cfg, order, s, c, reply, lag); }
    case _ => HealthKeepsReserved(cfg, s, Step(cfg, order, s, a), {});
  }

  lemma {:induction false} RunReserves(cfg: Config, order: seq<string>, s: State, actions: seq<Action>)
    requires Reserved(cfg, s)
    ensures Reserved(cfg, Run(cfg, order, s, actions))
    decreases |actions|
  {
    if actions != [] {
      var rest := actions[..|actions| - 1];
      RunReserves(cfg, order, s, rest);
      StepReserves(cfg, order, Run(cfg, order, s, rest), actions[|actions| - 1]);
    }
  }

  /**
   Reservation conservation, in every reachable state of any interleaving: each worker's count is
   the number of calls outstanding on it, within the cap; every release of a call in flight really
   decrements; and the counts are all zero when no call is in flight.
   */
  lemma {:induction false} ReservationsAreConserved(cfg: Config, order: seq<string>, now: real, actions: seq<Action>)
    ensures
      var s := Run(cfg, order, Initial(order, now), actions);
      && (forall w :: w in s.pool.nodes ==>
            && s.pool.nodes[w].outstanding == |Holders(s.calls, w)|
            && (s.pool.nodes[w].outstanding == 0 || s.pool.nodes[w].outstanding <= cfg.cap))
      && (forall c :: c in s.calls && s.calls[c].InFlight? ==>
            s.calls[c].worker in s.pool.nodes && s.pool.nodes[s.calls[c].worker].outstanding > 0)
      && ((forall c :: c in s.calls ==> s.calls[c].Ended?) ==>
            forall w :: w in s.pool.nodes ==> s.pool.nodes[w].outstanding == 0)
  {
    var s := Run(cfg, order, Initial(order, now), actions);
    assert Reserved(cfg, Initial(order, now)) by {
      forall w
        ensures Counted(cfg, Initial(order, now), {}, w)
      {
        assert Holders(map[], w) == {};
      }
    }
    RunReserves(cfg, order, Initial(order, now), actions);
    forall c | c in s.calls && s.calls[c].InFlight?
      ensures s.calls[c].worker in s.pool.nodes && s.pool.nodes[s.calls[c].worker].outstanding > 0
    {
      ReleaseFreesOne(cfg, s, c);
    }
    forall w | w in s.pool.nodes
      ensures s.pool.nodes[w].outstanding == |Holders(s.calls, w)|
      ensures s.pool.nodes[w].outstanding == 0 || s.pool.nodes[w].outstanding <= cfg.cap
    {
      assert Counted(cfg, s, {}, w);
      assert Holders(s.calls, w) - {} == Holders(s.calls, w);
    }
    if forall c :: c in s.calls ==> s.calls[c].Ended? {
      forall w
        ensures Holders(s.calls, w) == {}
      {}
    }
  }
}
