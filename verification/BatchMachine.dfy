/**
 The worker's dynamic batcher as a step machine.

 One coroutine serves a bounded queue; request handlers admit envelopes, wait on their futures
 and may cancel them. Every step of the coroutine reads the clock at most once, so time may pass
 between any two readings. Handlers, cancellations, the clock and a shutdown may act between any
 two steps; the program lets them act only while the coroutine is suspended, so every run of the
 program is a run of this machine.
 */
module BatchMachine {
  import opened Clock
  import opened Lists

  datatype Prediction = Prediction(category: string, score: real)

  /** Envelopes are named by ticket: the position of their admission. */
  datatype Envelope = Envelope(requestId: string, inputs: seq<string>, deadline: real, enqueueTime: real)

  datatype BatchResult = BatchResult(predictions: seq<Prediction>, queueMs: real, preprocessMs: real,
                                     inferenceMs: real, postprocessMs: real, workerTotalMs: real)

  datatype Failure = ExpiredInQueue | ExpiredBeforeExecution | ExpiredAfterExecution | InferenceFailed

  datatype Future = Pending | Cancelled | Value(result: BatchResult) | Error(failure: Failure)

  datatype Config = Config(queueCapacity: int, maxBatchRequests: int, maxBatchItems: int, maxBatchDelayMs: int)

  datatype Slice = Slice(from: nat, to: nat)

  datatype Output = Output(predictions: seq<Prediction>, preprocessMs: real, inferenceMs: real, postprocessMs: real)

  /** Where the coroutine stands, with the local variables that are live there. */
  datatype Phase =
    | Fetching
    | Opening(first: nat)
    | Collecting(batch: seq<nat>, total: nat, timer: real)
    | Waiting(batch: seq<nat>, total: nat, timer: real)
    | Starting(batch: seq<nat>)
    | Preparing(todo: seq<nat>, start: real, valid: seq<nat>, flat: seq<string>, slices: seq<Slice>)
    | Executing(start: real, valid: seq<nat>, flat: seq<string>, slices: seq<Slice>)
    | Failing(todo: seq<nat>)
    | Scattering(todo: seq<nat>, slices: seq<Slice>, output: Output, start: real, end: real)
    | Stopped(abandoned: seq<nat>)

  datatype Settlement = Settlement(ticket: nat, outcome: Future, at: real)

  /**
   What has happened so far; no step reads it.
   submitted: batches handed to the executor. dropped: tickets found done or expired before that.
   finished: tickets whose batch came back. deferred: tickets that went through the hold slot.
   iterations: first envelopes taken.
   */
  datatype History = History(submitted: seq<seq<nat>>, dropped: seq<nat>, finished: seq<nat>,
                             deferred: seq<nat>, settlements: seq<Settlement>, iterations: nat)

  datatype State = State(now: real, stopping: bool, admitted: seq<Envelope>, futures: seq<Future>,
                         queue: seq<nat>, hold: Option<nat>, phase: Phase, history: History)

  datatype Action =
    | Tick(elapsed: Duration)
    | Enqueue(requestId: string, inputs: seq<string>, deadline: real)
    | Cancel(ticket: nat)
    | Close
    | Go
    | Timeout
    | Return(output: Output)
    | Raise

  datatype Admission = Accepted | ShuttingDown | QueueFull

  const EMPTY_HISTORY := History([], [], [], [], [], 0)

  function Initial(now: real): State {
    State(now, false, [], [], [], None, Fetching, EMPTY_HISTORY)
  }

  // ----- views of a state -----

  /** The envelopes the coroutine holds in local variables, in order. */
  function InHand(p: Phase): seq<nat> {
    match p
    case Fetching => []
    case Opening(first) => [first]
    case Collecting(batch, _, _) => batch
    case Waiting(batch, _, _) => batch
    case Starting(batch) => batch
    case Preparing(todo, _, valid, _, _) => valid + todo
    case Executing(_, valid, _, _) => valid
    case Failing(todo) => todo
    case Scattering(todo, _, _, _, _) => todo
    case Stopped(abandoned) => abandoned
  }

  /** The envelopes not yet taken up, in order: the held one comes first. */
  function Upcoming(s: State): seq<nat> {
    if s.hold.Some? then [s.hold.value] + s.queue else s.queue
  }

  /** Every envelope the batcher still has somewhere: in hand, in the hold slot, in the queue. */
  function Custody(s: State): seq<nat> {
    InHand(s.phase) + Upcoming(s)
  }

  function QueueDepth(s: State): nat {
    |s.queue| + if s.hold.Some? then 1 else 0
  }

  /** Indices are in range and parallel lists have equal length. */
  predicate WellFormed(s: State) {
    && |s.futures| == |s.admitted|
    && Below(s.queue, |s.admitted|)
    && (s.hold.Some? ==> s.hold.value < |s.admitted|)
    && match s.phase {
         case Opening(first) => first < |s.admitted|
         case Preparing(todo, _, valid, _, slices) =>
           Below(todo, |s.admitted|) && Below(valid, |s.admitted|) && |slices| == |valid|
         case Executing(_, valid, _, slices) => Below(valid, |s.admitted|) && |slices| == |valid|
         case Scattering(todo, slices, _, _, _) => Below(todo, |s.admitted|) && |slices| == |todo|
         case p => Below(InHand(p), |s.admitted|)
       }
  }

  predicate Below(xs: seq<nat>, n: int) {
    forall k :: 0 <= k < |xs| ==> xs[k] < n
  }

  // ----- steps of the environment -----

  function Admit(cfg: Config, s: State): Admission {
    if s.stopping then ShuttingDown
    else if 0 < cfg.queueCapacity <= |s.queue| then QueueFull
    else Accepted
  }

  function EnqueueStep(cfg: Config, s: State, env: Envelope): (t: State)
    requires WellFormed(s)
    ensures WellFormed(t)
  {
    if Admit(cfg, s) != Accepted then s
    else s.(admitted := s.admitted + [env], futures := s.futures + [Pending], queue := s.queue + [|s.admitted|])
  }

  function CancelStep(s: State, i: nat): (t: State)
    requires WellFormed(s)
    ensures WellFormed(t)
  {
    if i < |s.futures| && s.futures[i] == Pending then s.(futures := s.futures[i := Cancelled]) else s
  }

  /** Shutdown cancels the coroutine where it is suspended; the collecting loop swallows the cancellation. */
  function CloseStep(s: State): (t: State)
    requires WellFormed(s)
    ensures WellFormed(t)
  {
    var s := s.(stopping := true);
    match s.phase
    case Fetching => s.(phase := Stopped([]))
    case Waiting(batch, _, _) => s.(phase := Starting(batch))
    case Executing(_, valid, _, _) => s.(phase := Stopped(valid))
    case _ => s
  }

  // ----- steps of the coroutine -----

  function Settle(s: State, i: nat, outcome: Future): (t: State)
    requires i < |s.futures|
  {
    s.(futures := s.futures[i := outcome],
       history := s.history.(settlements := s.history.settlements + [Settlement(i, outcome, s.now)]))
  }

  function Drop(s: State, i: nat): State {
    s.(history := s.history.(dropped := s.history.dropped + [i]))
  }

  function Finish(s: State, i: nat): State {
    s.(history := s.history.(finished := s.history.finished + [i]))
  }

  /** The verdict of the check made on every envelope before it may be executed. */
  predicate Live(s: State, i: nat)
    requires i < |s.futures| == |s.admitted|
  {
    s.futures[i] == Pending && s.now <= s.admitted[i].deadline
  }

  /** Discards an envelope that is not live: skipped when done, settled with a deadline error when expired. */
  function Discard(s: State, i: nat, failure: Failure): State
    requires i < |s.futures|
  {
    if s.futures[i] != Pending then Drop(s, i) else Drop(Settle(s, i, Error(failure)), i)
  }

  function TakeFirst(s: State, i: nat): State
    requires i < |s.futures| == |s.admitted|
  {
    var s := s.(history := s.history.(iterations := s.history.iterations + 1));
    if Live(s, i) then s.(phase := Opening(i)) else Discard(s, i, ExpiredInQueue)
  }

  function GoFetching(s: State): (t: State)
    requires WellFormed(s)
    ensures WellFormed(t)
  {
    if s.stopping then s.(phase := Stopped([]))
    else if s.hold.Some? then TakeFirst(s.(hold := None), s.hold.value)
    else if s.queue == [] then s
    else TakeFirst(s.(queue := s.queue[1..]), s.queue[0])
  }

  function GoOpening(cfg: Config, s: State): (t: State)
    requires WellFormed(s) && s.phase.Opening?
    ensures WellFormed(t)
  {
    var first := s.phase.first;
    s.(phase := Collecting([first], |s.admitted[first].inputs|, s.now + cfg.maxBatchDelayMs as real / 1000.0))
  }

  function GoCollecting(cfg: Config, s: State): (t: State)
    requires WellFormed(s) && s.phase.Collecting?
    ensures WellFormed(t)
  {
    var Collecting(batch, total, timer) := s.phase;
    if |batch| < cfg.maxBatchRequests && total < cfg.maxBatchItems && timer - s.now > 0.0
    then s.(phase := Waiting(batch, total, timer))
    else s.(phase := Starting(batch))
  }

  function GoWaiting(cfg: Config, s: State): (t: State)
    requires WellFormed(s) && s.phase.Waiting?
    ensures WellFormed(t)
  {
    var Waiting(batch, total, timer) := s.phase;
    if s.queue == [] then s
    else
      var i := s.queue[0];
      var size := |s.admitted[i].inputs|;
      var s := s.(queue := s.queue[1..], phase := Collecting(batch, total, timer));
      if !Live(s, i) then Discard(s, i, ExpiredInQueue)
      else if total + size > cfg.maxBatchItems
      then s.(hold := Some(i), phase := Starting(batch), history := s.history.(deferred := s.history.deferred + [i]))
      else s.(phase := Collecting(batch + [i], total + size, timer))
  }

  function GoPreparing(s: State): (t: State)
    requires WellFormed(s) && s.phase.Preparing?
    ensures WellFormed(t)
  {
    var Preparing(todo, start, valid, flat, slices) := s.phase;
    if todo == [] then
      if valid == [] then s.(phase := Fetching)
      else s.(phase := Executing(start, valid, flat, slices),
              history := s.history.(submitted := s.history.submitted + [valid]))
    else
      var i := todo[0];
      if !Live(s, i) then Discard(s.(phase := Preparing(todo[1..], start, valid, flat, slices)), i, ExpiredBeforeExecution)
      else
        var inputs := s.admitted[i].inputs;
        s.(phase := Preparing(todo[1..], start, valid + [i], flat + inputs,
                              slices + [Slice(|flat|, |flat| + |inputs|)]))
  }

  function GoFailing(s: State): (t: State)
    requires WellFormed(s) && s.phase.Failing?
    ensures WellFormed(t)
  {
    var todo := s.phase.todo;
    if todo == [] then s.(phase := Fetching)
    else
      var i := todo[0];
      var u := if s.futures[i] != Pending then s else Settle(s, i, Error(InferenceFailed));
      Finish(u.(phase := Failing(todo[1..])), i)
  }

  /** Slicing as the program's language does it: bounds beyond the end are cut off. */
  function CutSlice<T>(xs: seq<T>, sl: Slice): seq<T> {
    var lo := if sl.from <= |xs| then sl.from else |xs|;
    var hi := if sl.to <= |xs| then sl.to else |xs|;
    if lo <= hi then xs[lo..hi] else []
  }

  function Clamp(x: real): real {
    if x > 0.0 then x else 0.0
  }

  function ResultFor(s: State): BatchResult
    requires WellFormed(s) && s.phase.Scattering? && s.phase.todo != []
  {
    var Scattering(todo, slices, output, start, end) := s.phase;
    var enqueued := s.admitted[todo[0]].enqueueTime;
    BatchResult(CutSlice(output.predictions, slices[0]), Clamp((start - enqueued) * 1000.0),
                output.preprocessMs, output.inferenceMs, output.postprocessMs, Clamp((end - enqueued) * 1000.0))
  }

  /** Settles the next envelope of the batch that came back, unless it is done. */
  function Answer(s: State): State
    requires WellFormed(s) && s.phase.Scattering? && s.phase.todo != []
  {
    var i := s.phase.todo[0];
    if s.futures[i] != Pending then s
    else if s.now > s.admitted[i].deadline then Settle(s, i, Error(ExpiredAfterExecution))
    else Settle(s, i, Value(ResultFor(s)))
  }

  function GoScattering(s: State): (t: State)
    requires WellFormed(s) && s.phase.Scattering?
    ensures WellFormed(t)
  {
    var Scattering(todo, slices, output, start, end) := s.phase;
    if todo == [] then s.(phase := Fetching)
    else Finish(Answer(s).(phase := Scattering(todo[1..], slices[1..], output, start, end)), todo[0])
  }

  function GoStep(cfg: Config, s: State): (t: State)
    requires WellFormed(s)
    ensures WellFormed(t)
  {
    match s.phase
    case Fetching => GoFetching(s)
    case Opening(_) => GoOpening(cfg, s)
    case Collecting(_, _, _) => GoCollecting(cfg, s)
    case Waiting(_, _, _) => GoWaiting(cfg, s)
    case Starting(batch) => s.(phase := Preparing(batch, s.now, [], [], []))
    case Preparing(_, _, _, _, _) => GoPreparing(s)
    case Failing(_) => GoFailing(s)
    case Scattering(_, _, _, _, _) => GoScattering(s)
    case _ => s
  }

  function Step(cfg: Config, s: State, a: Action): (t: State)
    requires WellFormed(s)
    ensures WellFormed(t)
  {
    match a
    case Tick(elapsed) => s.(now := s.now + elapsed)
    case Enqueue(id, inputs, deadline) => EnqueueStep(cfg, s, Envelope(id, inputs, deadline, s.now))
    case Cancel(i) => CancelStep(s, i)
    case Close => CloseStep(s)
    case Go => GoStep(cfg, s)
    case Timeout => if s.phase.Waiting? then s.(phase := Starting(s.phase.batch)) else s
    case Return(output) =>
      if s.phase.Executing?
      then s.(phase := Scattering(s.phase.valid, s.phase.slices, output, s.phase.start, s.now)) else s
    case Raise => if s.phase.Executing? then s.(phase := Failing(s.phase.valid)) else s
  }

  function Run(cfg: Config, s: State, actions: seq<Action>): (t: State)
    requires WellFormed(s)
    ensures WellFormed(t)
    decreases |actions|
  {
    if actions == [] then s
    else Step(cfg, Run(cfg, s, actions[..|actions| - 1]), actions[|actions| - 1])
  }
}
