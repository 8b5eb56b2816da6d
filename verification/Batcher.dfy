/**
 The batcher itself: an object whose coroutine loops over its queue. A script says what happens
 next: the acts of request handlers, the clock and shutdown, and the turns of the coroutine. The
 object's fields and the coroutine's locals are, after every step of any script, the state of the
 step machine.
 */
module BatcherLoop {
  import opened Lists
  import opened BatchMachine

  /** The kinds of places where the coroutine lets the script go on. */
  datatype Point = AtFetch | AtWait | AtExecutor | Running

  class Batcher {
    const cfg: Config
    var now: real
    var stopping: bool
    var admitted: seq<Envelope>
    var futures: seq<Future>
    var queue: seq<nat>
    var nextEnvelope: Option<nat>
    var script: seq<Action>

    ghost var phase: Phase
    ghost var history: History
    ghost const origin: State
    ghost var past: seq<Action>

    constructor (cfg: Config, now: real, script: seq<Action>)
      ensures this.cfg == cfg && origin == Initial(now) && this.script == script && past == []
      ensures Valid() && phase.Fetching?
    {
      this.cfg, this.now, this.script := cfg, now, script;
      stopping, admitted, futures, queue, nextEnvelope := false, [], [], [], None;
      phase, history, origin, past := Fetching, EMPTY_HISTORY, Initial(now), [];
    }

    ghost function View(): State
      reads this
    {
      State(now, stopping, admitted, futures, queue, nextEnvelope, phase, history)
    }

    /** The fields are where the machine is after what happened so far. */
    ghost predicate Valid()
      reads this
    {
      WellFormed(origin) && View() == Run(cfg, origin, past)
    }

    ghost function Whole(): seq<Action>
      reads this
    {
      past + script
    }

    /** Records that the next entry of the script has happened. */
    method Commit(ghost before: State)
      requires WellFormed(origin) && before == Run(cfg, origin, past)
      requires script != [] && View() == Step(cfg, before, script[0])
      modifies this`script, this`past
      ensures Valid() && Whole() == old(Whole()) && script == old(script)[1..]
    {
      OneEntryOn(past, script);
      past, script := past + [script[0]], script[1..];
    }

    static lemma OneEntryOn(past: seq<Action>, script: seq<Action>)
      requires script != []
      ensures (past + [script[0]])[..|past|] == past
      ensures past + [script[0]] + script[1..] == past + script
    {}

    // ----- the handlers' side -----

    method Enqueue(requestId: string, inputs: seq<string>, deadline: real) returns (verdict: Admission)
      requires WellFormed(View())
      modifies this`admitted, this`futures, this`queue
      ensures verdict == if stopping then ShuttingDown else if 0 < cfg.queueCapacity <= |old(queue)| then QueueFull else Accepted
      ensures verdict == Accepted ==>
                && admitted == old(admitted) + [Envelope(requestId, inputs, deadline, now)]
                && futures == old(futures) + [Pending] && queue == old(queue) + [|old(admitted)|]
      ensures verdict != Accepted ==> View() == old(View())
      ensures View() == Step(cfg, old(View()), Action.Enqueue(requestId, inputs, deadline))
    {
      if stopping {
        return ShuttingDown;
      }
      if 0 < cfg.queueCapacity <= |queue| {
        return QueueFull;
      }
      queue := queue + [|admitted|];
      admitted := admitted + [Envelope(requestId, inputs, deadline, now)];
      futures := futures + [Pending];
      return Accepted;
    }

    /** The acts that the coroutine notices at a point. */
    predicate Effective(point: Point, a: Action)
      reads this
    {
      match point
      case AtFetch => (a.Go? && (stopping || nextEnvelope.Some? || queue != [])) || a.Close?
      case AtWait => (a.Go? && queue != []) || a.Timeout? || a.Close?
      case AtExecutor => a.Return? || a.Raise? || a.Close?
      case Running => a.Go?
    }

    ghost predicate At(point: Point)
      reads this
    {
      match point
      case AtFetch => phase.Fetching?
      case AtWait => phase.Waiting?
      case AtExecutor => phase.Executing?
      case Running => !phase.Fetching? && !phase.Waiting? && !phase.Executing? && !phase.Stopped?
    }

    /** One act that the coroutine does not notice. */
    method Perform(point: Point, a: Action)
      requires WellFormed(View()) && At(point) && !Effective(point, a)
      modifies this`now, this`stopping, this`admitted, this`futures, this`queue
      ensures View() == Step(cfg, old(View()), a)
    {
      match a {
        case Tick(elapsed) => now := now + elapsed;
        case Enqueue(requestId, inputs, deadline) =>
          var verdict := this.Enqueue(requestId, inputs, deadline);
        case Cancel(i) =>
          if i < |futures| && futures[i] == Pending {
            futures := futures[i := Cancelled];
          }
        case Close => stopping := true;
        case _ =>
      }
    }

    /** Lets the script go on until the coroutine's own next act; none if the script ends before. */
    method Await(point: Point) returns (turn: Option<Action>)
      requires Valid() && At(point)
      modifies this`now, this`stopping, this`admitted, this`futures, this`queue, this`script, this`past
      ensures Valid() && At(point) && Whole() == old(Whole()) && |script| <= |old(script)|
      ensures if turn.Some? then script != [] && script[0] == turn.value && Effective(point, turn.value) else script == []
    {
      while script != [] && !Effective(point, script[0])
        invariant Valid() && At(point) && Whole() == old(Whole()) && |script| <= |old(script)|
        decreases |script|
      {
        ghost var before := View();
        Perform(point, script[0]);
        Commit(before);
      }
      turn := if script == [] then None else Some(script[0]);
    }

    // ----- the coroutine's side -----

    /** set_exception and set_result on a pending future. */
    method Settle(i: nat, outcome: Future)
      requires i < |futures|
      modifies this`futures, this`history
      ensures futures == old(futures)[i := outcome]
      ensures history == old(history).(settlements := old(history).settlements + [Settlement(i, outcome, now)])
    {
      futures := futures[i := outcome];
      history := history.(settlements := history.settlements + [Settlement(i, outcome, now)]);
    }

    /** The check before an envelope may be executed: skips it when done, fails it when expired. */
    method Check(i: nat, failure: Failure) returns (live: bool)
      requires i < |futures| == |admitted|
      modifies this`futures, this`history
      ensures live == BatchMachine.Live(old(View()), i)
      ensures View() == if live then old(View()) else BatchMachine.Discard(old(View()), i, failure)
    {
      live := false;
      if futures[i] == Pending {
        if now > admitted[i].deadline {
          Settle(i, Error(failure));
        } else {
          return true;
        }
      }
      history := history.(dropped := history.dropped + [i]);
    }

    /** The coroutine reaches another place. */
    ghost method Enter(next: Phase)
      modifies this`phase
      ensures View() == old(View()).(phase := next)
    {
      phase := next;
    }

    method Dequeue() returns (i: nat)
      requires queue != []
      modifies this`queue
      ensures i == old(queue)[0] && View() == old(View()).(queue := old(queue)[1..])
    {
      i := queue[0];
      queue := queue[1..];
    }

    /** The hold slot comes before the queue. */
    method NextFirst() returns (i: nat)
      requires nextEnvelope.Some? || queue != []
      modifies this`queue, this`nextEnvelope, this`history
      ensures i == Upcoming(old(View()))[0]
      ensures
        var taken := if old(nextEnvelope).Some? then old(View()).(hold := None) else old(View()).(queue := old(queue)[1..]);
        View() == taken.(history := old(history).(iterations := old(history).iterations + 1))
    {
      if nextEnvelope.Some? {
        i := nextEnvelope.value;
        nextEnvelope := None;
      } else {
        i := Dequeue();
      }
      history := history.(iterations := history.iterations + 1);
    }

    method HoldBack(i: nat)
      modifies this`nextEnvelope, this`history
      ensures View()
           == old(View()).(hold := Some(i), history := old(history).(deferred := old(history).deferred + [i]))
    {
      nextEnvelope := Some(i);
      history := history.(deferred := history.deferred + [i]);
    }

    /** Takes the first envelope of a batch, from the hold slot or the queue; none if it is not live. */
    method FetchFirst() returns (first: Option<nat>)
      requires WellFormed(View()) && phase.Fetching? && !stopping && (nextEnvelope.Some? || queue != [])
      modifies this`queue, this`nextEnvelope, this`futures, this`phase, this`history
      ensures View() == GoStep(cfg, old(View()))
      ensures if first.Some? then phase == Opening(first.value) else phase.Fetching?
    {
      var i := NextFirst();
      var live := Check(i, ExpiredInQueue);
      if !live {
        return None;
      }
      Enter(Opening(i));
      first := Some(i);
    }

    /** One envelope pulled while collecting; `full` when it had to be held for the next batch. */
    method PullOne(batch: seq<nat>, total: nat, timer: real) returns (batch': seq<nat>, total': nat, full: bool)
      requires WellFormed(View()) && phase == Waiting(batch, total, timer) && queue != []
      modifies this`queue, this`nextEnvelope, this`futures, this`phase, this`history
      ensures View() == GoStep(cfg, old(View()))
      ensures phase == if full then Starting(batch') else Collecting(batch', total', timer)
    {
      var i := Dequeue();
      Enter(Collecting(batch, total, timer));
      batch', total', full := batch, total, false;
      var live := Check(i, ExpiredInQueue);
      if live {
        if total + |admitted[i].inputs| > cfg.maxBatchItems {
          HoldBack(i);
          Enter(Starting(batch));
          full := true;
        } else {
          batch', total' := batch + [i], total + |admitted[i].inputs|;
          Enter(Collecting(batch', total', timer));
        }
      }
    }

    /** A step that only moves the coroutine on to another place. */
    method Move(next: Phase)
      requires Valid() && script != []
      requires Step(cfg, View(), script[0]) == View().(phase := next)
      modifies this`phase, this`script, this`past
      ensures Valid() && Whole() == old(Whole()) && script == old(script)[1..] && phase == next
    {
      ghost var before := View();
      phase := next;
      Commit(before);
    }

    /** Waits for one more envelope while the timer runs; `more` while the batch stays open. */
    method WaitForOne(batch: seq<nat>, total: nat, timer: real) returns (batch': seq<nat>, total': nat, more: bool)
      requires Valid() && phase == Collecting(batch, total, timer)
      requires |batch| < cfg.maxBatchRequests && total < cfg.maxBatchItems
      modifies this
      ensures Valid() && Whole() == old(Whole()) && |script| <= |old(script)|
      ensures if more then phase == Collecting(batch', total', timer) && |script| < |old(script)|
              else script == [] || phase == Starting(batch')
    {
      batch', total', more := batch, total, false;
      var turn := Await(Running);
      if turn.None? { return; }
      if timer - now <= 0.0 {
        Move(Starting(batch));
        return;
      }
      Move(Waiting(batch, total, timer));
      turn := Await(AtWait);
      if turn.None? { return; }
      if turn.value != Go {
        EndWait(batch, total, timer);
        return;
      }
      ghost var before := View();
      var full;
      batch', total', full := PullOne(batch, total, timer);
      Commit(before);
      more := !full;
    }

    /** Collects a batch up to the limits, the timer, or the first envelope that does not fit. */
    method CollectBatch(first: nat) returns (batch: seq<nat>)
      requires Valid() && phase == Opening(first)
      modifies this
      ensures Valid() && Whole() == old(Whole()) && |script| <= |old(script)|
      ensures script == [] || phase == Starting(batch)
    {
      batch := [first];
      var turn := Await(Running);
      if turn.None? { return; }
      var total: nat := |admitted[first].inputs|;
      var timer := now + cfg.maxBatchDelayMs as real / 1000.0;
      Move(Collecting(batch, total, timer));
      while |batch| < cfg.maxBatchRequests && total < cfg.maxBatchItems
        invariant Valid() && Whole() == old(Whole()) && |script| <= |old(script)|
        invariant phase == Collecting(batch, total, timer)
        decreases |script|
      {
        var more;
        batch, total, more := WaitForOne(batch, total, timer);
        if !more { return; }
      }
      turn := Await(Running);
      if turn.None? { return; }
      Move(Starting(batch));
    }

    /** A timeout or a cancellation ends the wait for more envelopes. */
    method EndWait(batch: seq<nat>, total: nat, timer: real)
      requires Valid() && phase == Waiting(batch, total, timer)
      requires script != [] && (script[0].Timeout? || script[0].Close?)
      modifies this
      ensures Valid() && Whole() == old(Whole()) && script == old(script)[1..] && phase == Starting(batch)
    {
      ghost var before := View();
      if script[0].Close? { stopping := true; }
      phase := Starting(batch);
      Commit(before);
    }

    /** Adds one envelope of the batch to the flattened inputs, or discards it. */
    method PrepareOne(todo: seq<nat>, start: real, valid: seq<nat>, flat: seq<string>, slices: seq<Slice>)
      returns (valid': seq<nat>, flat': seq<string>, slices': seq<Slice>)
      requires WellFormed(View()) && phase == Preparing(todo, start, valid, flat, slices) && todo != []
      modifies this`futures, this`phase, this`history
      ensures View() == GoStep(cfg, old(View()))
      ensures phase == Preparing(todo[1..], start, valid', flat', slices')
    {
      valid', flat', slices' := valid, flat, slices;
      var live := Check(todo[0], ExpiredBeforeExecution);
      if live {
        var inputs := admitted[todo[0]].inputs;
        valid' := valid + [todo[0]];
        flat' := flat + inputs;
        slices' := slices + [Slice(|flat|, |flat| + |inputs|)];
      }
      Enter(Preparing(todo[1..], start, valid', flat', slices'));
    }

    /** The turn that prepares one envelope, once the script has come to it; none if it ends before. */
    method PrepareNext(todo: seq<nat>, start: real, valid: seq<nat>, flat: seq<string>, slices: seq<Slice>)
      returns (turn: Option<Action>, valid': seq<nat>, flat': seq<string>, slices': seq<Slice>)
      requires Valid() && phase == Preparing(todo, start, valid, flat, slices) && todo != []
      modifies this
      ensures Valid() && Whole() == old(Whole()) && |script| <= |old(script)|
      ensures if turn.Some? then phase == Preparing(todo[1..], start, valid', flat', slices') else script == []
    {
      valid', flat', slices' := valid, flat, slices;
      turn := Await(Running);
      if turn.None? { return; }
      ghost var before := View();
      valid', flat', slices' := PrepareOne(todo, start, valid, flat, slices);
      Commit(before);
    }

    /** Flattens the live envelopes of the batch and records each one's slice. */
    method PrepareBatch(batch: seq<nat>)
      returns (start: real, valid: seq<nat>, flat: seq<string>, slices: seq<Slice>)
      requires Valid() && phase == Starting(batch)
      modifies this
      ensures Valid() && Whole() == old(Whole()) && |script| <= |old(script)|
      ensures script == [] || (script[0] == Go && phase == Preparing([], start, valid, flat, slices))
    {
      start, valid, flat, slices := now, [], [], [];
      var turn := Await(Running);
      if turn.None? { return; }
      start := now;
      Move(Preparing(batch, start, [], [], []));
      for i := 0 to |batch|
        invariant Valid() && Whole() == old(Whole()) && |script| <= |old(script)|
        invariant phase == Preparing(batch[i..], start, valid, flat, slices)
      {
        turn, valid, flat, slices := PrepareNext(batch[i..], start, valid, flat, slices);
        if turn.None? { return; }
        assert batch[i..][1..] == batch[i + 1..];
      }
      turn := Await(Running);
    }

    /** Hands the prepared batch to the executor. */
    method Submit(start: real, valid: seq<nat>, flat: seq<string>, slices: seq<Slice>)
      requires Valid() && phase == Preparing([], start, valid, flat, slices) && valid != []
      requires script != [] && script[0] == Go
      modifies this
      ensures Valid() && Whole() == old(Whole()) && script == old(script)[1..]
      ensures phase == Executing(start, valid, flat, slices)
    {
      ghost var before := View();
      phase := Executing(start, valid, flat, slices);
      history := history.(submitted := history.submitted + [valid]);
      Commit(before);
    }

    method FailOne(todo: seq<nat>)
      requires WellFormed(View()) && phase == Failing(todo) && todo != []
      modifies this`futures, this`phase, this`history
      ensures View() == GoStep(cfg, old(View())) && phase == Failing(todo[1..])
    {
      if futures[todo[0]] == Pending {
        Settle(todo[0], Error(InferenceFailed));
      }
      history := history.(finished := history.finished + [todo[0]]);
      Enter(Failing(todo[1..]));
    }

    /** After a failed inference every envelope that is still waiting is told so. */
    method FailBatch(valid: seq<nat>)
      requires Valid() && phase == Failing(valid)
      modifies this
      ensures Valid() && Whole() == old(Whole()) && |script| <= |old(script)|
      ensures script == [] || phase.Fetching?
    {
      var turn: Option<Action>;
      for i := 0 to |valid|
        invariant Valid() && Whole() == old(Whole()) && |script| <= |old(script)|
        invariant phase == Failing(valid[i..])
      {
        turn := Await(Running);
        if turn.None? { return; }
        ghost var before := View();
        FailOne(valid[i..]);
        Commit(before);
        assert valid[i..][1..] == valid[i + 1..];
      }
      turn := Await(Running);
      if turn.None? { return; }
      Move(Fetching);
    }

    /** Settles one envelope of a batch that came back, unless it is done. */
    method AnswerOne(todo: seq<nat>, slices: seq<Slice>, output: Output, start: real, end: real)
      requires WellFormed(View()) && phase == Scattering(todo, slices, output, start, end) && todo != []
      modifies this`futures, this`history
      ensures View() == BatchMachine.Answer(old(View()))
    {
      var env := admitted[todo[0]];
      if futures[todo[0]] == Pending {
        var result := BatchResult(CutSlice(output.predictions, slices[0]), Clamp((start - env.enqueueTime) * 1000.0),
                                  output.preprocessMs, output.inferenceMs, output.postprocessMs,
                                  Clamp((end - env.enqueueTime) * 1000.0));
        if now > env.deadline {
          Settle(todo[0], Error(ExpiredAfterExecution));
        } else {
          Settle(todo[0], Value(result));
        }
      }
    }

    method ScatterOne(todo: seq<nat>, slices: seq<Slice>, output: Output, start: real, end: real)
      requires WellFormed(View()) && phase == Scattering(todo, slices, output, start, end) && todo != []
      modifies this`futures, this`phase, this`history
      ensures View() == GoStep(cfg, old(View()))
      ensures |slices| == |todo| && phase == Scattering(todo[1..], slices[1..], output, start, end)
    {
      AnswerOne(todo, slices, output, start, end);
      history := history.(finished := history.finished + [todo[0]]);
      Enter(Scattering(todo[1..], slices[1..], output, start, end));
    }

    /** Gives every envelope of the batch its slice of the output. */
    method ScatterBatch(valid: seq<nat>, slices: seq<Slice>, output: Output, start: real, end: real)
      requires Valid() && phase == Scattering(valid, slices, output, start, end)
      modifies this
      ensures Valid() && Whole() == old(Whole()) && |script| <= |old(script)|
      ensures script == [] || phase.Fetching?
    {
      var turn: Option<Action>;
      for i := 0 to |valid|
        invariant Valid() && Whole() == old(Whole()) && |script| <= |old(script)|
        invariant |slices| == |valid| && phase == Scattering(valid[i..], slices[i..], output, start, end)
      {
        turn := Await(Running);
        if turn.None? { return; }
        ghost var before := View();
        ScatterOne(valid[i..], slices[i..], output, start, end);
        Commit(before);
        assert valid[i..][1..] == valid[i + 1..] && slices[i..][1..] == slices[i + 1..];
      }
      turn := Await(Running);
      if turn.None? { return; }
      Move(Fetching);
    }

    /** Shutdown while the coroutine is suspended at the queue or at the executor. */
    method Stop(abandoned: seq<nat>)
      requires Valid() && script != [] && script[0] == Close
      requires (phase.Fetching? && abandoned == []) || (phase.Executing? && phase.valid == abandoned)
      modifies this
      ensures Valid() && Whole() == old(Whole()) && script == old(script)[1..] && phase == Stopped(abandoned)
    {
      ghost var before := View();
      stopping := true;
      phase := Stopped(abandoned);
      Commit(before);
    }

    /** Prepares, executes and scatters one batch; `on` when the coroutine is back at its fetch. */
    method ProcessBatch(batch: seq<nat>) returns (on: bool)
      requires Valid() && phase == Starting(batch)
      modifies this
      ensures Valid() && Whole() == old(Whole()) && |script| <= |old(script)|
      ensures if on then phase.Fetching? else script == [] || phase.Stopped?
    {
      on := false;
      var start, valid, flat, slices := PrepareBatch(batch);
      if script == [] { return; }
      if valid == [] {
        Move(Fetching);
        return true;
      }
      Submit(start, valid, flat, slices);
      var turn := Await(AtExecutor);
      if turn.None? { return; }
      if turn.value.Return? {
        var output, end := turn.value.output, now;
        Move(Scattering(valid, slices, output, start, end));
        ScatterBatch(valid, slices, output, start, end);
        on := script != [];
      } else if turn.value.Raise? {
        Move(Failing(valid));
        FailBatch(valid);
        on := script != [];
      } else {
        Stop(valid);
      }
    }

    /**
     The coroutine: fetch, collect, process, until the script ends or a shutdown stops it. It
     refines the step machine: whatever it has done of the script, its fields are the machine's.
     */
    method RunLoop()
      requires Valid() && phase.Fetching?
      modifies this
      ensures View() == Run(cfg, origin, past) && past + script == old(past + script)
      ensures script == [] || phase.Stopped?
    {
      while true
        invariant Valid() && Whole() == old(Whole()) && phase.Fetching?
        decreases |script|
      {
        var turn := Await(AtFetch);
        if turn.None? { return; }
        if turn.value == Close {
          Stop([]);
          return;
        }
        if stopping {
          Move(Stopped([]));
          return;
        }
        ghost var before := View();
        var first := FetchFirst();
        Commit(before);
        if first.None? { continue; }
        var batch := CollectBatch(first.value);
        if script == [] { return; }
        var on := ProcessBatch(batch);
        if !on { return; }
      }
    }
  }
}
