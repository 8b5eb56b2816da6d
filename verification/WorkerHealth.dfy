/**
 The gateway's health state machine for one worker: status probes and marks by failed calls.
 */
module WorkerHealth {
  import opened Arithmetic

  datatype HealthState = Starting | Healthy | Unhealthy | Draining

  /** The state a worker reports about itself. */
  datatype WorkerState = StateUnspecified | StateStarting | StateReady | StateDraining

  datatype Report = NoAnswer | Status(modelVersion: string, modelSha256: string, state: WorkerState)

  datatype Verdict = SaysDraining | Compatible | Failed

  datatype Expected = Expected(modelVersion: string, modelSha256: string)

  datatype Thresholds = Thresholds(failure: int, recovery: int)

  datatype Health = Health(state: HealthState, failures: int, successes: int)

  datatype Event = Probe(verdict: Verdict) | Mark

  const NEW_WORKER := Health(Starting, 0, 0)

  /** A draining worker is recognised before its model is compared. */
  function Judge(expected: Expected, report: Report): Verdict {
    match report
    case NoAnswer => Failed
    case Status(version, sha, state) =>
      if state == StateDraining then SaysDraining
      else if version == expected.modelVersion && sha == expected.modelSha256
              && (state == StateReady || state == StateStarting) then Compatible
      else Failed
  }

  function RecordFailure(th: Thresholds, h: Health): Health {
    var h := h.(successes := 0, failures := h.failures + 1);
    if h.state == Healthy && h.failures >= th.failure then h.(state := Unhealthy) else h
  }

  function RecordSuccess(th: Thresholds, h: Health): Health {
    var h := h.(failures := 0, successes := h.successes + 1);
    if h.state == Starting && h.successes >= 1 then h.(state := Healthy)
    else if h.state == Unhealthy && h.successes >= th.recovery then h.(state := Healthy)
    else h
  }

  function Observe(th: Thresholds, h: Health, verdict: Verdict): Health {
    match verdict
    case SaysDraining => Health(Draining, 0, 0)
    case Compatible => RecordSuccess(th, h)
    case Failed => RecordFailure(th, h)
  }

  /** A failed call ejects a healthy worker at once and leaves any other worker alone. */
  function MarkUnhealthy(th: Thresholds, h: Health): Health {
    if h.state == Healthy then Health(Unhealthy, th.failure, 0) else h
  }

  function Next(th: Thresholds, h: Health, e: Event): Health {
    match e
    case Probe(verdict) => Observe(th, h, verdict)
    case Mark => MarkUnhealthy(th, h)
  }

  function After(th: Thresholds, h: Health, events: seq<Event>): Health {
    if events == [] then h
    else Next(th, After(th, h, events[..|events| - 1]), events[|events| - 1])
  }

  lemma {:induction false} AfterConcat(th: Thresholds, h: Health, first: seq<Event>, second: seq<Event>)
    ensures After(th, h, first + second) == After(th, After(th, h, first), second)
  {
    if second == [] {
      assert first + second == first;
    } else {
      AfterConcat(th, h, first, second[..|second| - 1]);
      assert (first + second)[..|first + second| - 1] == first + second[..|second| - 1];
    }
  }

  // ----- the counters refine the history -----

  /** The event ends a run of results of the counted kind; a mark does so only on a healthy worker. */
  predicate Breaks(counted: Verdict, th: Thresholds, h: Health, events: seq<Event>, k: nat)
    requires k < |events|
  {
    match events[k]
    case Probe(verdict) => verdict != counted
    case Mark => After(th, h, events[..k]).state == Healthy
  }

  function Count(p: Event -> bool, events: seq<Event>): nat {
    if events == [] then 0
    else Count(p, events[..|events| - 1]) + if p(events[|events| - 1]) then 1 else 0
  }

  predicate IsCompatible(e: Event) { e == Probe(Compatible) }

  predicate IsFailed(e: Event) { e == Probe(Failed) }

  /** From `cut` on nothing broke the run of counted results, and it broke just before. */
  ghost predicate Streak(counted: Verdict, th: Thresholds, h: Health, events: seq<Event>, cut: nat) {
    && cut <= |events|
    && (cut == 0 || Breaks(counted, th, h, events, cut - 1))
    && forall k :: cut <= k < |events| ==> !Breaks(counted, th, h, events, k)
  }

  /** What an effective mark just before the cut put into the failure counter. */
  function Charged(th: Thresholds, events: seq<Event>, cut: nat): int {
    if 0 < cut <= |events| && events[cut - 1].Mark? then th.failure else 0
  }

  /** Both counters are what the streak of their own kind of result says. */
  predicate CountedFrom(counted: Verdict, th: Thresholds, events: seq<Event>, cut: nat)
    requires cut <= |events|
  {
    var t := After(th, NEW_WORKER, events);
    && (counted == Compatible ==> t.successes == Count(IsCompatible, events[cut..]))
    && (counted == Failed ==> t.failures == Charged(th, events, cut) + Count(IsFailed, events[cut..]))
  }

  lemma {:induction false} StreakOf(counted: Verdict, th: Thresholds, events: seq<Event>) returns (cut: nat)
    ensures Streak(counted, th, NEW_WORKER, events, cut) && CountedFrom(counted, th, events, cut)
  {
    if events == [] {
      cut := 0;
    } else {
      var n := |events| - 1;
      var rest := events[..n];
      var cut' := StreakOf(counted, th, rest);
      SameBreaks(counted, th, events);
      if Breaks(counted, th, NEW_WORKER, events, n) {
        cut := n + 1;
      } else {
        cut := cut';
        assert events[cut..][..n - cut] == rest[cut..];
      }
    }
  }

  lemma SameBreaks(counted: Verdict, th: Thresholds, events: seq<Event>)
    requires events != []
    ensures forall k :: 0 <= k < |events| - 1 ==>
              Breaks(counted, th, NEW_WORKER, events[..|events| - 1], k) == Breaks(counted, th, NEW_WORKER, events, k)
  {
    assert forall k :: 0 <= k < |events| - 1 ==> events[..|events| - 1][..k] == events[..k];
  }

  lemma StreakIsUnique(counted: Verdict, th: Thresholds, events: seq<Event>, cut: nat, other: nat)
    requires Streak(counted, th, NEW_WORKER, events, cut) && Streak(counted, th, NEW_WORKER, events, other)
    ensures cut == other
  {
    assert cut > 0 ==> Breaks(counted, th, NEW_WORKER, events, cut - 1);
    assert other > 0 ==> Breaks(counted, th, NEW_WORKER, events, other - 1);
  }

  /**
   The success counter is the length of the compatible suffix of the probe history, cut at the last
   failed probe, draining report or effective mark: there is one such cut and the counter agrees with it.
   */
  lemma {:induction false} SuccessesCountTheStreak(th: Thresholds, events: seq<Event>)
    ensures exists cut: nat :: Streak(Compatible, th, NEW_WORKER, events, cut)
    ensures forall cut: nat :: Streak(Compatible, th, NEW_WORKER, events, cut) ==>
              After(th, NEW_WORKER, events).successes == Count(IsCompatible, events[cut..])
  {
    var last := StreakOf(Compatible, th, events);
    forall cut: nat | Streak(Compatible, th, NEW_WORKER, events, cut)
      ensures cut == last
    {
      StreakIsUnique(Compatible, th, events, cut, last);
    }
  }

  /**
   The failure counter is the number of failed probes since the last compatible probe, draining
   report or effective mark, plus the failure threshold if that last event was a mark.
   */
  lemma {:induction false} FailuresCountTheStreak(th: Thresholds, events: seq<Event>)
    ensures exists cut: nat :: Streak(Failed, th, NEW_WORKER, events, cut)
    ensures forall cut: nat :: Streak(Failed, th, NEW_WORKER, events, cut) ==>
              After(th, NEW_WORKER, events).failures == Charged(th, events, cut) + Count(IsFailed, events[cut..])
  {
    var last := StreakOf(Failed, th, events);
    forall cut: nat | Streak(Failed, th, NEW_WORKER, events, cut)
      ensures cut == last
    {
      StreakIsUnique(Failed, th, events, cut, last);
    }
  }

  /** What holds of the two counters in every reachable state. */
  predicate InRange(th: Thresholds, h: Health) {
    && (h.successes == 0 || h.failures == 0)
    && h.successes >= 0 && h.failures >= 0
    && (h.state == Starting ==> h.successes == 0)
    && (h.state == Healthy ==> h.failures < th.failure)
    && (h.state == Unhealthy ==> h.successes < th.recovery)
  }

  lemma {:induction false} CountersStayInRange(th: Thresholds, events: seq<Event>)
    requires th.failure >= 1 && th.recovery >= 1
    ensures InRange(th, After(th, NEW_WORKER, events))
  {
    if events != [] {
      CountersStayInRange(th, events[..|events| - 1]);
    }
  }

  /** The ranges hold in every reachable state exactly when both thresholds are at least one. */
  lemma CountersInRangeExactly(th: Thresholds)
    ensures (forall events :: InRange(th, After(th, NEW_WORKER, events))) <==> th.failure >= 1 && th.recovery >= 1
  {
    if th.failure >= 1 && th.recovery >= 1 {
      forall events
        ensures InRange(th, After(th, NEW_WORKER, events))
      {
        CountersStayInRange(th, events);
      }
    } else {
      var healthy, marked := [Probe(Compatible)], [Probe(Compatible), Mark];
      assert healthy[..0] == [] && marked[..1] == healthy;
      assert !InRange(th, After(th, NEW_WORKER, healthy)) || !InRange(th, After(th, NEW_WORKER, marked));
    }
  }

  // ----- draining is final -----

  lemma {:induction false} DrainingIsFinal(th: Thresholds, h: Health, events: seq<Event>)
    requires h.state == Draining
    ensures After(th, h, events).state == Draining
  {
    if events != [] {
      DrainingIsFinal(th, h, events[..|events| - 1]);
    }
  }

  // ----- isolation of an ejected worker -----

  function Verdicts(events: seq<Event>): seq<Verdict> {
    if events == [] then []
    else
      var rest := Verdicts(events[..|events| - 1]);
      match events[|events| - 1]
      case Probe(verdict) => rest + [verdict]
      case Mark => rest
  }

  lemma {:induction false} VerdictsConcat(first: seq<Event>, second: seq<Event>)
    ensures Verdicts(first + second) == Verdicts(first) + Verdicts(second)
  {
    if second == [] {
      assert first + second == first;
    } else {
      VerdictsConcat(first, second[..|second| - 1]);
      assert (first + second)[..|first + second| - 1] == first + second[..|second| - 1];
    }
  }

  ghost predicate Block(verdict: Verdict, verdicts: seq<Verdict>, from: nat, to: nat) {
    from <= to <= |verdicts| && forall k :: from <= k < to ==> verdicts[k] == verdict
  }

  /** At least n probe results in a row were compatible. */
  ghost predicate HadStreak(verdicts: seq<Verdict>, n: int) {
    exists from: nat, to: nat :: Block(Compatible, verdicts, from, to) && to - from >= n
  }

  lemma StreakKept(verdicts: seq<Verdict>, more: seq<Verdict>, n: int)
    requires HadStreak(verdicts, n)
    ensures HadStreak(verdicts + more, n)
  {
    var from: nat, to: nat :| Block(Compatible, verdicts, from, to) && to - from >= n;
    assert Block(Compatible, verdicts + more, from, to);
  }

  /**
   A worker that has just been ejected is healthy again only after at least `recovery` probe
   results in a row were compatible, all of them received since the ejection.
   */
  lemma {:induction false} RecoveryNeedsAStreak(th: Thresholds, h: Health, events: seq<Event>)
    requires h.state == Unhealthy && h.successes == 0
    ensures
      var t, seen := After(th, h, events), Verdicts(events);
      && (t.state == Healthy ==> HadStreak(seen, th.recovery))
      && (t.state == Unhealthy ==> 0 <= t.successes <= |seen| && Block(Compatible, seen, |seen| - t.successes, |seen|))
      && t.state != Starting
  {
    if events != [] {
      var rest, e := events[..|events| - 1], events[|events| - 1];
      RecoveryNeedsAStreak(th, h, rest);
      var u, t := After(th, h, rest), After(th, h, events);
      var seen, seen' := Verdicts(rest), Verdicts(events);
      if u.state == Healthy {
        StreakKept(seen, if e.Probe? then [e.verdict] else [], th.recovery);
        assert seen' == seen + if e.Probe? then [e.verdict] else [];
      } else if u.state == Unhealthy && t.state == Healthy {
        assert Block(Compatible, seen', |seen| - u.successes, |seen'|);
      }
    }
  }

  // ----- the probes that eject and restore -----

  /** Only probes of this kind. */
  predicate Only(verdict: Verdict, events: seq<Event>) {
    forall k :: 0 <= k < |events| ==> events[k] == Probe(verdict)
  }

  lemma {:induction false} CompatibleProbesCount(th: Thresholds, h: Health, events: seq<Event>)
    requires Only(Compatible, events) && h.successes >= 0
    ensures
      var t, n := After(th, h, events), |events|;
      && t.successes == h.successes + n
      && t.state == if n == 0 || h.state == Draining then h.state
                    else if h.state == Unhealthy && h.successes + n < th.recovery then Unhealthy
                    else Healthy
  {
    if events != [] {
      CompatibleProbesCount(th, h, events[..|events| - 1]);
    }
  }

  /**
   Recovery, exactly: a streak of compatible probes leaves a worker healthy if and only if it was not
   draining and, if it was unhealthy, the streak makes up what its success counter lacks.
   */
  lemma RecoveryExactly(th: Thresholds, h: Health, events: seq<Event>)
    requires Only(Compatible, events) && events != [] && h.successes >= 0
    ensures After(th, h, events).state == Healthy
       <==> h.state != Draining && (h.state == Unhealthy ==> h.successes + |events| >= th.recovery)
  {
    CompatibleProbesCount(th, h, events);
  }

  /** As many compatible probes as the recovery threshold asks for restore every worker but a draining one. */
  lemma StreakRestoresUnlessDraining(th: Thresholds, h: Health, events: seq<Event>)
    requires Only(Compatible, events) && |events| >= 1 && |events| >= th.recovery && h.successes >= 0
    ensures After(th, h, events).state == Healthy <==> h.state != Draining
  {
    RecoveryExactly(th, h, events);
  }

  lemma {:induction false} FailedProbesCount(th: Thresholds, h: Health, events: seq<Event>)
    requires Only(Failed, events) && h.failures >= 0
    ensures
      var t, n := After(th, h, events), |events|;
      && t.failures == h.failures + n
      && t.state == if n > 0 && h.state == Healthy && h.failures + n >= th.failure then Unhealthy else h.state
  {
    if events != [] {
      FailedProbesCount(th, h, events[..|events| - 1]);
    }
  }

  /** Ejection, exactly: a streak of failed probes ejects a healthy worker if and only if it fills its failure counter. */
  lemma EjectionExactly(th: Thresholds, h: Health, events: seq<Event>)
    requires Only(Failed, events) && events != [] && h.state == Healthy && h.failures >= 0
    ensures After(th, h, events).state == Unhealthy <==> h.failures + |events| >= th.failure
  {
    FailedProbesCount(th, h, events);
  }

  /** While a worker is healthy, as many of its latest probe results as its counter says were failed. */
  lemma {:induction false} HealthyFailuresAreLatest(th: Thresholds, events: seq<Event>)
    ensures
      var t, seen := After(th, NEW_WORKER, events), Verdicts(events);
      t.state == Healthy ==> 0 <= t.failures <= |seen| && Block(Failed, seen, |seen| - t.failures, |seen|)
  {
    if events != [] {
      HealthyFailuresAreLatest(th, events[..|events| - 1]);
    }
  }

  /** Probes eject a worker only when at least `failure` results in a row, the last ones, were failed. */
  lemma ProbeEjectionNeedsAStreak(th: Thresholds, events: seq<Event>, e: Event)
    requires var h := After(th, NEW_WORKER, events); ProbeEjects(h, e, Next(th, h, e))
    ensures
      var seen := Verdicts(events + [e]);
      exists from: nat :: Block(Failed, seen, from, |seen|) && |seen| - from >= th.failure
  {
    var h, seen := After(th, NEW_WORKER, events), Verdicts(events);
    HealthyFailuresAreLatest(th, events);
    assert (events + [e])[..|events|] == events;
    assert Verdicts(events + [e]) == seen + [e.verdict];
    assert Block(Failed, seen + [e.verdict], |seen| - h.failures, |seen| + 1);
  }

  // ----- amortised cost of flapping -----

  /** Number of transitions along the run that satisfy p. */
  function Transitions(th: Thresholds, h: Health, events: seq<Event>, p: (Health, Event, Health) -> bool): nat {
    if events == [] then 0
    else
      var rest, e := events[..|events| - 1], events[|events| - 1];
      var u := After(th, h, rest);
      Transitions(th, h, rest, p) + if p(u, e, Next(th, u, e)) then 1 else 0
  }

  predicate Recovers(h: Health, e: Event, t: Health) { h.state == Unhealthy && t.state == Healthy }

  predicate BecomesHealthy(h: Health, e: Event, t: Health) { h.state != Healthy && t.state == Healthy }

  predicate Ejects(h: Health, e: Event, t: Health) { h.state == Healthy && t.state == Unhealthy }

  predicate ProbeEjects(h: Health, e: Event, t: Health) { Ejects(h, e, t) && e.Probe? }

  lemma {:induction false} CountersNonNegative(th: Thresholds, events: seq<Event>)
    ensures var t := After(th, NEW_WORKER, events); t.successes >= 0 && (t.state == Healthy ==> t.failures >= 0)
  {
    if events != [] {
      CountersNonNegative(th, events[..|events| - 1]);
    }
  }

  /** Every recovery is paid for by `recovery` compatible probes of its own. */
  lemma {:induction false} RecoveriesArePaid(th: Thresholds, events: seq<Event>)
    ensures
      var t := After(th, NEW_WORKER, events);
      th.recovery * Transitions(th, NEW_WORKER, events, Recovers) + (if t.state == Unhealthy then t.successes else 0)
        <= Count(IsCompatible, events)
  {
    if events != [] {
      var rest := events[..|events| - 1];
      RecoveriesArePaid(th, rest);
      CountersNonNegative(th, rest);
      OneMore(th.recovery, Transitions(th, NEW_WORKER, rest, Recovers));
    }
  }

  /** Every ejection by probes is paid for by `failure` failed probes of its own. */
  lemma {:induction false} ProbeEjectionsArePaid(th: Thresholds, events: seq<Event>)
    ensures
      var t := After(th, NEW_WORKER, events);
      th.failure * Transitions(th, NEW_WORKER, events, ProbeEjects) + (if t.state == Healthy then t.failures else 0)
        <= Count(IsFailed, events)
  {
    if events != [] {
      var rest := events[..|events| - 1];
      ProbeEjectionsArePaid(th, rest);
      CountersNonNegative(th, rest);
      OneMore(th.failure, Transitions(th, NEW_WORKER, rest, ProbeEjects));
    }
  }

  /** A worker is ejected no more often than it became healthy. */
  lemma {:induction false} EjectionsFollowEntries(th: Thresholds, events: seq<Event>)
    ensures
      Transitions(th, NEW_WORKER, events, Ejects) + (if After(th, NEW_WORKER, events).state == Healthy then 1 else 0)
        <= Transitions(th, NEW_WORKER, events, BecomesHealthy)
  {
    if events != [] {
      EjectionsFollowEntries(th, events[..|events| - 1]);
    }
  }

  /** The three bounds on flapping over any event sequence. */
  lemma FlappingIsBounded(th: Thresholds, events: seq<Event>)
    ensures th.recovery * Transitions(th, NEW_WORKER, events, Recovers) <= Count(IsCompatible, events)
    ensures th.failure * Transitions(th, NEW_WORKER, events, ProbeEjects) <= Count(IsFailed, events)
    ensures Transitions(th, NEW_WORKER, events, Ejects) <= Transitions(th, NEW_WORKER, events, BecomesHealthy)
  {
    RecoveriesArePaid(th, events);
    ProbeEjectionsArePaid(th, events);
    EjectionsFollowEntries(th, events);
  }
}
