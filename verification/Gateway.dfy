/**
 The gateway's objects: worker nodes, the registry that updates their health, the scheduler that
 reserves them, and the client that carries a prediction through its attempts. Every method is
 proved to take its objects where the corresponding specification function takes their values.
 */
module Gateway {
  import opened Clock
  import opened Lists
  import opened Sorting
  import opened WorkerHealth
  import opened Scheduling
  import opened Routing
  import opened RoutingProtocol

  class WorkerNode {
    const workerId: string
    var state: HealthState
    var outstandingRequests: int
    var consecutiveFailures: int
    var consecutiveSuccesses: int

    constructor (workerId: string)
      ensures this.workerId == workerId && View() == Node(NEW_WORKER, 0)
    {
      this.workerId := workerId;
      state, outstandingRequests, consecutiveFailures, consecutiveSuccesses := Starting, 0, 0, 0;
    }

    ghost function View(): Node
      reads this
    {
      Node(Health(state, consecutiveFailures, consecutiveSuccesses), outstandingRequests)
    }
  }

  class WorkerRegistry {
    const expected: Expected
    const thresholds: Thresholds
    const order: seq<string>
    const workers: map<string, WorkerNode>

    constructor (expected: Expected, thresholds: Thresholds, order: seq<string>, workers: map<string, WorkerNode>)
      requires Distinct(order) && (forall id :: id in workers <==> id in order)
      requires forall id :: id in workers ==> workers[id].workerId == id
      ensures Valid() && this.workers == workers && this.order == order
      ensures this.expected == expected && this.thresholds == thresholds
    {
      this.expected, this.thresholds, this.order, this.workers := expected, thresholds, order, workers;
    }

    /** `order` lists the dictionary's keys; a node is filed under its own id. */
    ghost predicate Valid() {
      && Distinct(order)
      && (forall id :: id in workers <==> id in order)
      && (forall id :: id in workers ==> workers[id].workerId == id)
    }

    ghost function View(): (nodes: map<string, Node>)
      reads workers.Values
      ensures nodes.Keys == workers.Keys
    {
      map id | id in workers :: workers[id].View()
    }

    method IsAnyWorkerHealthy() returns (any: bool)
      requires Valid()
      ensures any <==> exists id :: id in order && IsHealthy(View(), id)
    {
      for i := 0 to |order|
        invariant forall k :: 0 <= k < i ==> !IsHealthy(View(), order[k])
      {
        assert order[i] in order;
        if workers[order[i]].state == Healthy {
          assert IsHealthy(View(), order[i]);
          return true;
        }
      }
      return false;
    }

    method MarkUnhealthyImmediately(id: string)
      requires Valid()
      modifies workers.Values
      ensures View() == MarkNode(thresholds, old(View()), id)
    {
      if id in workers {
        var worker := workers[id];
        if worker.state == Healthy {
          worker.state := Unhealthy;
          worker.consecutiveFailures := thresholds.failure;
          worker.consecutiveSuccesses := 0;
        }
      }
    }

    method RecordProbeFailure(worker: WorkerNode)
      modifies worker
      ensures worker.View() == old(worker.View()).(health := RecordFailure(thresholds, old(worker.View()).health))
    {
      worker.consecutiveSuccesses := 0;
      worker.consecutiveFailures := worker.consecutiveFailures + 1;
      if worker.state == Healthy && worker.consecutiveFailures >= thresholds.failure {
        worker.state := Unhealthy;
      }
    }

    /** What the poller does with one probe result. */
    method TakeReport(worker: WorkerNode, report: Report)
      modifies worker
      ensures worker.View()
           == old(worker.View()).(health := Observe(thresholds, old(worker.View()).health, Judge(expected, report)))
    {
      match report
      case NoAnswer => RecordProbeFailure(worker);
      case Status(version, sha, state) =>
        var compatible := version == expected.modelVersion && sha == expected.modelSha256
                          && (state == StateReady || state == StateStarting);
        if state == StateDraining {
          worker.state := Draining;
          worker.consecutiveFailures := 0;
          worker.consecutiveSuccesses := 0;
        } else if compatible {
          worker.consecutiveFailures := 0;
          worker.consecutiveSuccesses := worker.consecutiveSuccesses + 1;
          if worker.state == Starting && worker.consecutiveSuccesses >= 1 {
            worker.state := Healthy;
          } else if worker.state == Unhealthy && worker.consecutiveSuccesses >= thresholds.recovery {
            worker.state := Healthy;
          }
        } else {
          RecordProbeFailure(worker);
        }
    }

    method ProbeWorker(id: string, report: Report)
      requires Valid()
      modifies workers.Values
      ensures forall cfg: Config :: cfg.expected == expected && cfg.thresholds == thresholds ==>
                View() == ProbeNode(cfg, old(View()), id, report)
    {
      if id in workers {
        TakeReport(workers[id], report);
      }
    }
  }

  /** The worker that was reserved, or why none was. */
  datatype Pick = Picked(worker: WorkerNode) | NonePicked(error: Error)

  class Scheduler {
    const registry: WorkerRegistry
    const cap: int
    var cursor: nat

    constructor (registry: WorkerRegistry, cap: int)
      ensures this.registry == registry && this.cap == cap && cursor == 0
    {
      this.registry, this.cap, cursor := registry, cap, 0;
    }

    ghost function View(): Pool
      reads this, registry.workers.Values
    {
      Pool(registry.View(), cursor)
    }

    method HealthyWorkers() returns (healthy: seq<string>)
      requires registry.Valid()
      ensures healthy == HealthyIds(registry.order, registry.View())
      ensures forall k :: 0 <= k < |healthy| ==> healthy[k] in registry.workers
    {
      healthy := [];
      var order := registry.order;
      ghost var nodes := registry.View();
      for i := 0 to |order|
        invariant healthy == HealthyIds(order[..i], nodes)
        invariant forall k :: 0 <= k < |healthy| ==> healthy[k] in registry.workers
      {
        assert order[i] in order;
        FilterSnoc(id => IsHealthy(nodes, id), order[..i], order[i]);
        assert order[..i + 1] == order[..i] + [order[i]];
        if registry.workers[order[i]].state == Healthy {
          healthy := healthy + [order[i]];
        }
      }
      assert order[..|order|] == order;
    }

    method EligibleWorkers(healthy: seq<string>, exclude: set<string>) returns (eligible: seq<string>)
      requires forall k :: 0 <= k < |healthy| ==> healthy[k] in registry.workers
      ensures eligible == Filter(HasRoom(registry.View(), cap, exclude), healthy)
      ensures forall k :: 0 <= k < |eligible| ==> eligible[k] in registry.workers
    {
      eligible := [];
      ghost var nodes := registry.View();
      for i := 0 to |healthy|
        invariant eligible == Filter(HasRoom(nodes, cap, exclude), healthy[..i])
        invariant forall k :: 0 <= k < |eligible| ==> eligible[k] in registry.workers
      {
        FilterSnoc(HasRoom(nodes, cap, exclude), healthy[..i], healthy[i]);
        assert healthy[..i + 1] == healthy[..i] + [healthy[i]];
        if healthy[i] !in exclude && registry.workers[healthy[i]].outstandingRequests < cap {
          eligible := eligible + [healthy[i]];
        }
      }
      assert healthy[..|healthy|] == healthy;
    }

    method LeastOutstanding(ids: seq<string>) returns (least: int)
      requires ids != [] && forall k :: 0 <= k < |ids| ==> ids[k] in registry.workers
      ensures least == LeastLoad(registry.View(), ids)
    {
      least := registry.workers[ids[0]].outstandingRequests;
      ghost var nodes := registry.View();
      for i := 1 to |ids|
        invariant exists k :: 0 <= k < i && Load(nodes, ids[k]) == least
        invariant forall k :: 0 <= k < i ==> least <= Load(nodes, ids[k])
      {
        if registry.workers[ids[i]].outstandingRequests < least {
          least := registry.workers[ids[i]].outstandingRequests;
        }
      }
      LeastLoadIsLeast(nodes, ids);
    }

    method TiedWorkers(eligible: seq<string>, least: int) returns (tied: seq<string>)
      requires forall k :: 0 <= k < |eligible| ==> eligible[k] in registry.workers
      ensures tied == Filter(Carries(registry.View(), least), eligible)
    {
      tied := [];
      ghost var nodes := registry.View();
      for i := 0 to |eligible|
        invariant tied == Filter(Carries(nodes, least), eligible[..i])
      {
        FilterSnoc(Carries(nodes, least), eligible[..i], eligible[i]);
        assert eligible[..i + 1] == eligible[..i] + [eligible[i]];
        if registry.workers[eligible[i]].outstandingRequests == least {
          tied := tied + [eligible[i]];
        }
      }
      assert eligible[..|eligible|] == eligible;
    }

    /** The tied workers with the least load, sorted by worker id. */
    method RankedCandidates(eligible: seq<string>) returns (candidates: seq<string>)
      requires eligible != [] && forall k :: 0 <= k < |eligible| ==> eligible[k] in registry.workers
      ensures candidates == Candidates(registry.View(), eligible)
      ensures forall k :: 0 <= k < |candidates| ==> candidates[k] in registry.workers
    {
      var least := LeastOutstanding(eligible);
      candidates := TiedWorkers(eligible, least);
      candidates := Sort(LexLeq, candidates);
      CandidateMembers(registry.View(), eligible);
      forall k | 0 <= k < |candidates|
        ensures candidates[k] in registry.workers
      {
        assert candidates[k] in candidates;
      }
    }

    method ReserveOn(worker: WorkerNode)
      requires registry.Valid() && worker in registry.workers.Values
      modifies worker`outstandingRequests
      ensures registry.View() == Reserve(old(registry.View()), worker.workerId)
    {
      worker.outstandingRequests := worker.outstandingRequests + 1;
    }

    /** Which worker is next and where the cursor goes, without reserving yet. */
    method Choose(exclude: set<string>) returns (id: string, next: nat, error: Option<Error>)
      requires registry.Valid()
      ensures
        var pool := View();
        match Select(registry.order, pool, cap, exclude)
        case Selected(w, pool') =>
          error == None && w == id && id in registry.workers && pool' == Pool(Reserve(pool.nodes, id), next)
        case NoHealthyWorker => error == Some(NoHealthyWorkerError)
        case AtCapacity => error == Some(GatewayAtCapacityError)
    {
      id, next := "", cursor;
      var healthy := HealthyWorkers();
      if healthy == [] {
        return id, next, Some(NoHealthyWorkerError);
      }
      var eligible := EligibleWorkers(healthy, exclude);
      if eligible == [] {
        return id, next, Some(GatewayAtCapacityError);
      }
      var candidates := RankedCandidates(eligible);
      id, next, error := candidates[cursor % |candidates|], (cursor + 1) % |candidates|, None;
    }

    /** Reserves on a least-loaded healthy worker; the whole region runs without suspending. */
    method SelectWorker(exclude: set<string>) returns (pick: Pick)
      requires registry.Valid()
      modifies this`cursor, registry.workers.Values
      ensures
        match Select(registry.order, old(View()), cap, exclude)
        case Selected(w, pool) => View() == pool && w in registry.workers && pick == Picked(registry.workers[w])
        case NoHealthyWorker => View() == old(View()) && pick == NonePicked(NoHealthyWorkerError)
        case AtCapacity => View() == old(View()) && pick == NonePicked(GatewayAtCapacityError)
    {
      var id, next, error := Choose(exclude);
      if error.Some? {
        return NonePicked(error.value);
      }
      var worker := registry.workers[id];
      ghost var nodes := registry.View();
      cursor := next;
      ReserveOn(worker);
      assert View() == Pool(Scheduling.Reserve(nodes, id), next);
      pick := Picked(worker);
    }

    method ReleaseWorker(id: string)
      requires registry.Valid()
      modifies registry.workers.Values
      ensures View() == old(View()).(nodes := Release(old(registry.View()), id))
    {
      if id in registry.workers && registry.workers[id].outstandingRequests > 0 {
        var worker := registry.workers[id];
        worker.outstandingRequests := worker.outstandingRequests - 1;
      }
    }
  }

  /** What happens while an attempt is outstanding, how it comes back, and how long handling the reply takes. */
  datatype Exchange = Exchange(meanwhile: seq<Action>, reply: Reply, lag: Duration)

  predicate Concerns(a: Action, c: nat) {
    (a.Begin? || a.Deliver?) && a.call == c
  }

  predicate Foreign(actions: seq<Action>, c: nat) {
    forall k :: 0 <= k < |actions| ==> !Concerns(actions[k], c)
  }

  /** The actions of a prediction c whose attempts went as listed. */
  function Tape(c: nat, timeoutMs: int, lag: Duration, exchanges: seq<Exchange>): seq<Action> {
    if exchanges == [] then [Begin(c, timeoutMs, lag)]
    else
      var last := exchanges[|exchanges| - 1];
      Tape(c, timeoutMs, lag, exchanges[..|exchanges| - 1]) + last.meanwhile + [Deliver(c, last.reply, last.lag)]
  }

  lemma {:induction false} ForeignKeepsCall(cfg: Config, order: seq<string>, s: State, actions: seq<Action>, c: nat)
    requires c in s.calls && Foreign(actions, c)
    ensures var t := Run(cfg, order, s, actions); c in t.calls && t.calls[c] == s.calls[c]
    decreases |actions|
  {
    if actions != [] {
      ForeignKeepsCall(cfg, order, s, actions[..|actions| - 1], c);
      assert !Concerns(actions[|actions| - 1], c);
    }
  }

  /** The state after k attempts of a prediction that began in s. */
  function Reached(cfg: Config, order: seq<string>, s: State, c: nat, timeoutMs: int, lag: Duration,
                   exchanges: seq<Exchange>, k: nat): State
    requires k <= |exchanges|
  {
    if k == 0 then BeginStep(cfg, order, s, c, timeoutMs, lag)
    else
      var x, sent := exchanges[k - 1], Reached(cfg, order, s, c, timeoutMs, lag, exchanges, k - 1);
      DeliverStep(cfg, order, Run(cfg, order, sent, x.meanwhile), c, x.reply, x.lag)
  }

  lemma {:induction false} TapeReaches(cfg: Config, order: seq<string>, s: State, c: nat, timeoutMs: int, lag: Duration,
                                       exchanges: seq<Exchange>, k: nat)
    requires k <= |exchanges|
    ensures Run(cfg, order, s, Tape(c, timeoutMs, lag, exchanges[..k]))
         == Reached(cfg, order, s, c, timeoutMs, lag, exchanges, k)
  {
    if k == 0 {
      assert [Begin(c, timeoutMs, lag)][..0] == [];
    } else {
      var x, tape := exchanges[k - 1], Tape(c, timeoutMs, lag, exchanges[..k - 1]);
      TapeReaches(cfg, order, s, c, timeoutMs, lag, exchanges, k - 1);
      assert exchanges[..k][..k - 1] == exchanges[..k - 1];
      RunConcat(cfg, order, s, tape, x.meanwhile);
      var longer := tape + x.meanwhile;
      assert (longer + [Deliver(c, x.reply, x.lag)])[..|longer|] == longer;
    }
  }

  lemma BeginDispatches(cfg: Config, order: seq<string>, s: State, c: nat, timeoutMs: int, lag: Duration)
    requires c !in s.calls
    ensures BeginStep(cfg, order, s, c, timeoutMs, lag)
         == Dispatch(cfg, order, s.(now := s.now + lag), c, 1, DeadlineAfter(s.now, timeoutMs), {}, [])
  {}

  class GatewayClient {
    const registry: WorkerRegistry
    const scheduler: Scheduler
    const cfg: Config
    var now: real
    /** The suspended and ended predictions with what each of them remembers. */
    var calls: map<nat, Call>

    constructor (registry: WorkerRegistry, scheduler: Scheduler, minRetryBudgetMs: int, now: real)
      requires registry.Valid() && scheduler.registry == registry
      ensures Valid() && this.registry == registry && this.scheduler == scheduler
      ensures this.now == now && calls == map[] && cfg.minRetryBudgetMs == minRetryBudgetMs
    {
      this.registry, this.scheduler, this.now := registry, scheduler, now;
      cfg := Config(scheduler.cap, registry.thresholds, registry.expected, minRetryBudgetMs);
      calls := map[];
    }

    ghost predicate Valid() {
      && registry.Valid() && scheduler.registry == registry
      && cfg.cap == scheduler.cap && cfg.thresholds == registry.thresholds && cfg.expected == registry.expected
    }

    ghost function View(): State
      reads this, scheduler, scheduler.registry.workers.Values
    {
      State(now, scheduler.View(), calls)
    }

    method SetCall(c: nat, call: Call)
      modifies this`calls
      ensures View() == old(View()).(calls := old(calls)[c := call])
    {
      calls := calls[c := call];
    }

    method Reserve(exclude: set<string>) returns (pick: Pick)
      requires Valid()
      modifies scheduler`cursor, registry.workers.Values
      ensures
        match Select(registry.order, old(View()).pool, cfg.cap, exclude)
        case Selected(w, pool) => View() == old(View()).(pool := pool) && pick.Picked? && pick.worker.workerId == w
        case NoHealthyWorker => View() == old(View()) && pick == NonePicked(NoHealthyWorkerError)
        case AtCapacity => View() == old(View()) && pick == NonePicked(GatewayAtCapacityError)
    {
      pick := scheduler.SelectWorker(exclude);
    }

    method Release(w: string)
      requires Valid()
      modifies registry.workers.Values
      ensures View() == ReleaseNode(old(View()), w)
    {
      scheduler.ReleaseWorker(w);
    }

    method Mark(w: string)
      requires Valid()
      modifies registry.workers.Values
      ensures View() == MarkWorker(cfg, old(View()), w)
    {
      registry.MarkUnhealthyImmediately(w);
    }

    /** The head of the retry loop: the deadline check and the selection; `out` if the call is now outstanding. */
    method Try(c: nat, attempt: nat, deadline: real, tried: set<string>, rpcs: seq<Rpc>) returns (out: bool)
      requires Valid()
      modifies this`calls, scheduler`cursor, registry.workers.Values
      ensures View() == Dispatch(cfg, registry.order, old(View()), c, attempt, deadline, tried, rpcs)
      ensures c in calls && (out <==> calls[c].InFlight?)
      ensures calls[c] == if out then InFlight(calls[c].worker, attempt, deadline, tried, rpcs) else Ended(calls[c].outcome, rpcs)
    {
      if deadline - now <= 0.0 {
        SetCall(c, Ended(Failure(DeadlineExceededError), rpcs));
        return false;
      }
      var pick := Reserve(tried);
      if pick.Picked? {
        SetCall(c, InFlight(pick.worker.workerId, attempt, deadline, tried, rpcs));
      } else {
        SetCall(c, Ended(Failure(pick.error), rpcs));
      }
      out := pick.Picked?;
    }

    /** The reply does not lead to a retry: the worker is released and the prediction ends. */
    method Conclude(c: nat, w: string, outcome: Outcome, rpcs: seq<Rpc>)
      requires Valid()
      modifies this`calls, registry.workers.Values
      ensures View() == End(ReleaseNode(old(View()), w), c, outcome, rpcs)
    {
      Release(w);
      SetCall(c, Ended(outcome, rpcs));
    }

    /** Handles the reply of an attempt: marks, releases, and either ends the prediction or asks for a retry. */
    method HandleReply(c: nat, reply: Reply) returns (retry: bool)
      requires Valid() && c in calls && calls[c].InFlight?
      modifies this`calls, registry.workers.Values
      ensures
        var call := old(calls[c]);
        retry <==> WasUnavailable(Rpc(call.worker, reply)) && MayRetry(cfg, call.attempt, call.deadline, now)
      ensures retry ==> View() == ReleaseNode(MarkWorker(cfg, old(View()), old(calls[c].worker)), old(calls[c].worker))
      ensures !retry ==> forall lag: Duration :: View() == DeliverStep(cfg, registry.order, old(View()), c, reply, lag)
      ensures !retry ==> c in calls && calls[c].Ended? && calls[c].rpcs == old(calls[c]).rpcs + [Rpc(old(calls[c]).worker, reply)]
    {
      var InFlight(w, attempt, deadline, tried, rpcs) := calls[c];
      var done := rpcs + [Rpc(w, reply)];
      retry := false;
      if reply.Answered? {
        Conclude(c, w, Success(w, attempt), done);
      } else if reply.Interrupted? {
        Conclude(c, w, Aborted, done);
      } else if reply.code != Unavailable {
        Conclude(c, w, Failure(MapError(reply.code, reply.unsupportedModel)), done);
      } else {
        Mark(w);
        if MayRetry(cfg, attempt, deadline, now) {
          Release(w);
          retry := true;
        } else {
          Conclude(c, w, Failure(WorkerUnavailableError), done);
        }
      }
    }

    method Pass(elapsed: Duration)
      modifies this`now
      ensures View() == old(View()).(now := old(now) + elapsed)
    {
      now := now + elapsed;
    }

    /** A prediction resumes with the reply of its attempt. */
    method Resume(c: nat, reply: Reply, lag: Duration)
      requires Valid() && c in calls && calls[c].InFlight?
      modifies this`now, this`calls, scheduler`cursor, registry.workers.Values
      ensures View() == DeliverStep(cfg, registry.order, old(View()), c, reply, lag)
    {
      ghost var before := View();
      var call := calls[c];
      var retry := HandleReply(c, reply);
      if retry {
        DeliverRetries(cfg, registry.order, before, c, reply, lag);
        Pass(lag);
        var out := Try(c, call.attempt + 1, call.deadline, call.tried + {call.worker}, call.rpcs + [Rpc(call.worker, reply)]);
      } else {
        assert View() == DeliverStep(cfg, registry.order, before, c, reply, lag);
      }
    }

    method Start(c: nat, timeoutMs: int, lag: Duration)
      requires Valid() && c !in calls
      modifies this`now, this`calls, scheduler`cursor, registry.workers.Values
      ensures View() == BeginStep(cfg, registry.order, old(View()), c, timeoutMs, lag)
    {
      ghost var before := View();
      BeginDispatches(cfg, registry.order, before, c, timeoutMs, lag);
      var deadline := DeadlineAfter(now, timeoutMs);
      Pass(lag);
      var out := Try(c, 1, deadline, {}, []);
    }

    method Probe(w: string, report: Report)
      requires Valid()
      modifies registry.workers.Values
      ensures View() == Step(cfg, registry.order, old(View()), Action.ProbeWorker(w, report))
    {
      registry.ProbeWorker(w, report);
    }

    /** One step of the gateway. */
    method Perform(a: Action)
      requires Valid()
      modifies this`now, this`calls, scheduler`cursor, registry.workers.Values
      ensures View() == Step(cfg, registry.order, old(View()), a)
    {
      match a
      case Tick(elapsed) => Pass(elapsed);
      case ProbeWorker(w, report) => Probe(w, report);
      case Begin(c, timeoutMs, lag) => if c !in calls { Start(c, timeoutMs, lag); }
      case Deliver(c, reply, lag) => if c in calls && calls[c].InFlight? { Resume(c, reply, lag); }
    }

    /** Everything else that happens while a prediction is suspended. */
    method Meanwhile(actions: seq<Action>)
      requires Valid()
      modifies this`now, this`calls, scheduler`cursor, registry.workers.Values
      ensures View() == Run(cfg, registry.order, old(View()), actions)
    {
      for i := 0 to |actions|
        invariant View() == Run(cfg, registry.order, old(View()), actions[..i])
      {
        assert actions[..i + 1][..i] == actions[..i];
        Perform(actions[i]);
      }
      assert actions[..|actions|] == actions;
    }

    /** One attempt whose call is outstanding: what happens meanwhile, and the reply. */
    method Exchanged(c: nat, x: Exchange) returns (retry: bool)
      requires Valid() && c in calls && calls[c].InFlight? && Foreign(x.meanwhile, c)
      modifies this`now, this`calls, scheduler`cursor, registry.workers.Values
      ensures
        var mid := Run(cfg, registry.order, old(View()), x.meanwhile);
        var InFlight(w, attempt, deadline, tried, rpcs) := old(calls[c]);
        var after := DeliverStep(cfg, registry.order, mid, c, x.reply, x.lag);
        if retry then
          && attempt == 1
          && after == Dispatch(cfg, registry.order, View(), c, 2, deadline, tried + {w}, rpcs + [Rpc(w, x.reply)])
        else
          && View() == after
          && c in calls && calls[c].Ended? && calls[c].rpcs == rpcs + [Rpc(w, x.reply)]
    {
      ghost var call := calls[c];
      ForeignKeepsCall(cfg, registry.order, View(), x.meanwhile, c);
      Meanwhile(x.meanwhile);
      assert calls[c] == call;
      ghost var mid := View();
      retry := HandleReply(c, x.reply);
      if retry {
        DeliverRetries(cfg, registry.order, mid, c, x.reply, x.lag);
        Pass(x.lag);
      } else {
        assert View() == DeliverStep(cfg, registry.order, mid, c, x.reply, x.lag);
      }
    }

    /** One pass through the retry loop; `made` if it issued a call, to worker w. */
    method Attempt(c: nat, attempt: nat, deadline: real, tried: set<string>, rpcs: seq<Rpc>, x: Exchange)
      returns (made: bool, w: string, retry: bool)
      requires Valid() && Foreign(x.meanwhile, c)
      modifies this`now, this`calls, scheduler`cursor, registry.workers.Values
      ensures !retry ==> c in calls
      ensures
        var begun := Dispatch(cfg, registry.order, old(View()), c, attempt, deadline, tried, rpcs);
        if !made then !retry && View() == begun && calls[c].Ended? && calls[c].rpcs == rpcs
        else
          var after := DeliverStep(cfg, registry.order, Run(cfg, registry.order, begun, x.meanwhile), c, x.reply, x.lag);
          if retry then
            attempt == 1 && after == Dispatch(cfg, registry.order, View(), c, 2, deadline, tried + {w}, rpcs + [Rpc(w, x.reply)])
          else
            View() == after && calls[c].Ended? && calls[c].rpcs == rpcs + [Rpc(w, x.reply)]
    {
      made := Try(c, attempt, deadline, tried, rpcs);
      if !made {
        return made, "", false;
      }
      w := calls[c].worker;
      retry := Exchanged(c, x);
    }

    /**
     A whole prediction. `exchanges` says how its attempts go, should they be made. The loop takes
     the gateway exactly through the protocol's actions for the attempts made, whatever happens
     meanwhile; it never falls through, and ends with the one outcome its attempts explain.
     */
    method Predict(c: nat, timeoutMs: int, lag: Duration, exchanges: seq<Exchange>) returns (outcome: Outcome, attempts: nat)
      requires Valid() && c !in calls
      requires |exchanges| == 2 && Foreign(exchanges[0].meanwhile, c) && Foreign(exchanges[1].meanwhile, c)
      modifies this`now, this`calls, scheduler`cursor, registry.workers.Values
      ensures attempts <= 2
      ensures View() == Run(cfg, registry.order, old(View()), Tape(c, timeoutMs, lag, exchanges[..attempts]))
      ensures c in calls && calls[c].Ended? && calls[c].outcome == outcome && |calls[c].rpcs| == attempts
      ensures (forall d :: ProperAt(old(View()), d)) ==> Attempts(calls[c].rpcs) && Explains(calls[c].rpcs, outcome)
    {
      ghost var start := View();
      BeginDispatches(cfg, registry.order, start, c, timeoutMs, lag);
      var deadline := DeadlineAfter(now, timeoutMs);
      var tried: set<string>, rpcs: seq<Rpc> := {}, [];
      Pass(lag);
      var attempt := 1;
      while attempt <= 2
        invariant 1 <= attempt <= 2 && |rpcs| == attempt - 1
        invariant Reached(cfg, registry.order, start, c, timeoutMs, lag, exchanges, attempt - 1)
               == Dispatch(cfg, registry.order, View(), c, attempt, deadline, tried, rpcs)
        decreases 2 - attempt
      {
        var made, w, retry := Attempt(c, attempt, deadline, tried, rpcs, exchanges[attempt - 1]);
        if !retry {
          attempts := if made then attempt else attempt - 1;
          outcome := calls[c].outcome;
          TapeReaches(cfg, registry.order, start, c, timeoutMs, lag, exchanges, attempts);
          EndsProperly(start, View(), Tape(c, timeoutMs, lag, exchanges[..attempts]), c);
          return;
        }
        tried := tried + {w};
        rpcs := rpcs + [Rpc(w, exchanges[attempt - 1].reply)];
        attempt := attempt + 1;
      }
      assert false;
    }

    lemma EndsProperly(start: State, end: State, tape: seq<Action>, c: nat)
      requires end == Run(cfg, registry.order, start, tape)
      requires c in end.calls && end.calls[c].Ended?
      ensures (forall d :: ProperAt(start, d)) ==>
                Attempts(end.calls[c].rpcs) && Explains(end.calls[c].rpcs, end.calls[c].outcome)
    {
      if forall d :: ProperAt(start, d) {
        RunProper(cfg, registry.order, start, tape);
        assert ProperAt(end, c);
      }
    }
  }
}
