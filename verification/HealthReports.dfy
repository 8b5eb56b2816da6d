/**
 Worker health in terms of what the probes bring back, over whole runs of the gateway: which
 reports make a worker healthy, eject it, restore it and retire it.
 */
module HealthReports {
  import opened Lists
  import opened WorkerHealth
  import opened Scheduling
  import opened Routing
  import opened RoutingProtocol

  /** The worker says that it is going down, whatever its model. */
  predicate Retires(report: Report) {
    report.Status? && report.state == StateDraining
  }

  /** The worker serves the expected model and says that it is up or coming up. */
  predicate Good(expected: Expected, report: Report) {
    && report.Status?
    && report.modelVersion == expected.modelVersion && report.modelSha256 == expected.modelSha256
    && (report.state == StateReady || report.state == StateStarting)
  }

  /** No answer, or another model, or no useful state. */
  predicate Bad(expected: Expected, report: Report) {
    !Retires(report) && !Good(expected, report)
  }

  /** The reports that the probes of w bring back along a run, in order. */
  function ReportsOf(actions: seq<Action>, w: string): seq<Report> {
    if actions == [] then []
    else
      var rest := ReportsOf(actions[..|actions| - 1], w);
      match actions[|actions| - 1]
      case ProbeWorker(v, report) => if v == w then rest + [report] else rest
      case _ => rest
  }

  // ----- reports and verdicts -----

  lemma JudgeMeans(expected: Expected, report: Report)
    ensures Judge(expected, report) == SaysDraining <==> Retires(report)
    ensures Judge(expected, report) == Compatible <==> Good(expected, report)
    ensures Judge(expected, report) == Failed <==> Bad(expected, report)
  {}

  /** The verdicts are those of the reports, one by one. */
  ghost predicate Judged(expected: Expected, verdicts: seq<Verdict>, reports: seq<Report>) {
    |verdicts| == |reports| && forall k :: 0 <= k < |reports| ==> verdicts[k] == Judge(expected, reports[k])
  }

  lemma OneVerdict(cfg: Config, s: State, a: Action, w: string)
    ensures
      var more := EventsOf(cfg, s, a, w);
      Verdicts(more) == if a.ProbeWorker? && a.worker == w then [Judge(cfg.expected, a.report)] else []
  {
    var more := EventsOf(cfg, s, a, w);
    if more != [] {
      assert more[..|more| - 1] == [];
      assert Verdicts([]) == [];
    }
  }

  /** Along any run the health machine of w sees exactly the verdicts of w's reports. */
  lemma {:induction false} VerdictsOfRun(cfg: Config, order: seq<string>, s: State, actions: seq<Action>, w: string)
    ensures Judged(cfg.expected, Verdicts(Trace(cfg, order, s, actions, w)), ReportsOf(actions, w))
    decreases |actions|
  {
    if actions != [] {
      var rest, a := actions[..|actions| - 1], actions[|actions| - 1];
      var u := Run(cfg, order, s, rest);
      VerdictsOfRun(cfg, order, s, rest, w);
      VerdictsConcat(Trace(cfg, order, s, rest, w), EventsOf(cfg, u, a, w));
      OneVerdict(cfg, u, a, w);
    }
  }

  // ----- what a worker's state says about its reports -----

  /** A new worker is draining once it was told so, and starting until it was found compatible or draining. */
  lemma {:induction false} StateFromVerdicts(th: Thresholds, events: seq<Event>)
    ensures
      var state, seen := After(th, NEW_WORKER, events).state, Verdicts(events);
      && (state == Draining <==> SaysDraining in seen)
      && (state == Starting <==> SaysDraining !in seen && Compatible !in seen)
  {
    if events != [] {
      StateFromVerdicts(th, events[..|events| - 1]);
      CountersNonNegative(th, events[..|events| - 1]);
    }
  }

  lemma HealthOf(cfg: Config, order: seq<string>, now: real, actions: seq<Action>, w: string)
    requires w in order
    ensures
      var start := Initial(order, now);
      var t := Run(cfg, order, start, actions);
      && w in t.pool.nodes
      && t.pool.nodes[w].health == After(cfg.thresholds, NEW_WORKER, Trace(cfg, order, start, actions, w))
  {
    HealthFollowsTrace(cfg, order, Initial(order, now), actions, w);
  }

  /**
   In every reachable state a worker is draining exactly if one of its reports said so, and still
   starting exactly if none said so and none was good.
   */
  lemma {:induction false} StateFromReports(cfg: Config, order: seq<string>, now: real, actions: seq<Action>, w: string)
    requires w in order
    ensures
      var t, reports := Run(cfg, order, Initial(order, now), actions), ReportsOf(actions, w);
      && w in t.pool.nodes
      && (t.pool.nodes[w].health.state == Draining <==> exists r :: r in reports && Retires(r))
      && (t.pool.nodes[w].health.state == Starting <==> forall r :: r in reports ==> Bad(cfg.expected, r))
  {
    var events, reports := Trace(cfg, order, Initial(order, now), actions, w), ReportsOf(actions, w);
    HealthOf(cfg, order, now, actions, w);
    StateFromVerdicts(cfg.thresholds, events);
    VerdictsOfRun(cfg, order, Initial(order, now), actions, w);
    ReportsSeen(cfg.expected, Verdicts(events), reports);
  }

  lemma ReportsSeen(expected: Expected, verdicts: seq<Verdict>, reports: seq<Report>)
    requires Judged(expected, verdicts, reports)
    ensures SaysDraining in verdicts <==> exists r :: r in reports && Retires(r)
    ensures SaysDraining !in verdicts && Compatible !in verdicts <==> forall r :: r in reports ==> Bad(expected, r)
  {
    forall k | 0 <= k < |reports|
      ensures reports[k] in reports && verdicts[k] in verdicts
      ensures verdicts[k] == SaysDraining <==> Retires(reports[k])
      ensures verdicts[k] == Failed <==> Bad(expected, reports[k])
    {
      JudgeMeans(expected, reports[k]);
    }
    forall r | r in reports
      ensures Retires(r) ==> SaysDraining in verdicts
      ensures !Bad(expected, r) ==> SaysDraining in verdicts || Compatible in verdicts
    {
      var k :| 0 <= k < |reports| && reports[k] == r;
    }
  }

  /** A step that puts a call on some worker is no probe, so it makes nobody healthy. */
  lemma SelectionKeepsHealth(cfg: Config, order: seq<string>, s: State, a: Action, w: string)
    requires w in s.pool.nodes && Selects(s, Step(cfg, order, s, a), w)
    ensures
      var t := Step(cfg, order, s, a);
      w in t.pool.nodes && (IsHealthy(t.pool.nodes, w) ==> IsHealthy(s.pool.nodes, w))
  {
    var d :| NewlyOn(s, Step(cfg, order, s, a), w, d);
    assert !a.ProbeWorker?;
    StepMovesHealth(cfg, order, s, a, w);
    OneEvent(cfg.thresholds, s.pool.nodes[w].health, Mark);
  }

  /** Nobody is called before a good report, nor after a report that it is draining. */
  lemma {:induction false} SelectionNeedsGoodReport(cfg: Config, order: seq<string>, now: real, actions: seq<Action>, a: Action, w: string)
    requires w in order
    requires var u := Run(cfg, order, Initial(order, now), actions); Selects(u, Step(cfg, order, u, a), w)
    ensures exists r :: r in ReportsOf(actions, w) && Good(cfg.expected, r)
    ensures forall r :: r in ReportsOf(actions, w) ==> !Retires(r)
  {
    var u := Run(cfg, order, Initial(order, now), actions);
    StateFromReports(cfg, order, now, actions, w);
    SelectedIsHealthy(cfg, order, u, a, w);
    SelectionKeepsHealth(cfg, order, u, a, w);
  }

  // ----- single steps -----

  /** A worker becomes healthy only by a good report of its own. */
  lemma BecomesHealthyByGoodReport(cfg: Config, order: seq<string>, s: State, a: Action, w: string)
    requires w in s.pool.nodes && s.pool.nodes[w].health.state != Healthy
    ensures
      var t := Step(cfg, order, s, a);
      && w in t.pool.nodes
      && (t.pool.nodes[w].health.state == Healthy ==> a.ProbeWorker? && a.worker == w && Good(cfg.expected, a.report))
  {
    StepMovesHealth(cfg, order, s, a, w);
    OneEvent(cfg.thresholds, s.pool.nodes[w].health, Mark);
    if a.ProbeWorker? { OneEvent(cfg.thresholds, s.pool.nodes[w].health, Probe(Judge(cfg.expected, a.report))); }
  }

  /** The action is an UNAVAILABLE reply from w. */
  predicate FailsOn(s: State, a: Action, w: string) {
    && a.Deliver? && a.call in s.calls && s.calls[a.call].InFlight? && s.calls[a.call].worker == w
    && a.reply.Refused? && a.reply.code == Unavailable
  }

  /**
   A healthy worker stops being healthy exactly by an UNAVAILABLE reply, by a report that it is
   draining, or by a bad report that fills its failure counter.
   */
  lemma HealthLostExactly(cfg: Config, order: seq<string>, s: State, a: Action, w: string)
    requires w in s.pool.nodes && s.pool.nodes[w].health.state == Healthy
    ensures
      var t := Step(cfg, order, s, a);
      && w in t.pool.nodes
      && (t.pool.nodes[w].health.state != Healthy <==>
            || FailsOn(s, a, w)
            || (&& a.ProbeWorker? && a.worker == w
                && (|| Retires(a.report)
                    || (Bad(cfg.expected, a.report) && s.pool.nodes[w].health.failures + 1 >= cfg.thresholds.failure))))
  {
    StepMovesHealth(cfg, order, s, a, w);
    OneEvent(cfg.thresholds, s.pool.nodes[w].health, Mark);
    if a.ProbeWorker? { OneEvent(cfg.thresholds, s.pool.nodes[w].health, Probe(Judge(cfg.expected, a.report))); }
  }

  // ----- ejection -----

  /** The reports from one place to the end are bad. */
  ghost predicate BadFrom(expected: Expected, reports: seq<Report>, from: nat) {
    from <= |reports| && forall k :: from <= k < |reports| ==> Bad(expected, reports[k])
  }

  /** No verdict but failed ones: once the threshold is reached, a worker that was healthy is unhealthy. */
  lemma {:induction false} FailuresEject(th: Thresholds, h: Health, events: seq<Event>)
    requires h.state == Healthy && h.failures >= 0
    requires forall k :: 0 <= k < |Verdicts(events)| ==> Verdicts(events)[k] == Failed
    ensures
      var t, n := After(th, h, events), |Verdicts(events)|;
      || t.state == Unhealthy
      || (t.state == Healthy && t.failures == h.failures + n && (n == 0 || t.failures < th.failure))
  {
    if events != [] {
      var rest, e := events[..|events| - 1], events[|events| - 1];
      var seen := Verdicts(events);
      assert e.Probe? ==> seen == Verdicts(rest) + [e.verdict] && seen[|seen| - 1] == e.verdict;
      assert forall k :: 0 <= k < |Verdicts(rest)| ==> Verdicts(rest)[k] == seen[k];
      FailuresEject(th, h, rest);
    }
  }

  lemma HealthMovesOn(cfg: Config, order: seq<string>, now: real, before: seq<Action>, actions: seq<Action>, w: string)
    requires w in order
    ensures
      var s := Run(cfg, order, Initial(order, now), before);
      var u := Run(cfg, order, s, actions);
      && w in s.pool.nodes && w in u.pool.nodes
      && s.pool.nodes[w].health.successes >= 0
      && (s.pool.nodes[w].health.state == Healthy ==> s.pool.nodes[w].health.failures >= 0)
      && u.pool.nodes[w].health
         == After(cfg.thresholds, s.pool.nodes[w].health, Trace(cfg, order, s, actions, w))
  {
    HealthOf(cfg, order, now, before, w);
    CountersNonNegative(cfg.thresholds, Trace(cfg, order, Initial(order, now), before, w));
    HealthFollowsTrace(cfg, order, Run(cfg, order, Initial(order, now), before), actions, w);
  }

  /**
   From any reachable state in which a worker is healthy: after as many bad reports in a row as the
   failure threshold asks for, and no others, the worker is unhealthy, whatever else happened.
   */
  lemma {:induction false} BadReportsEject(cfg: Config, order: seq<string>, now: real, before: seq<Action>,
                                           actions: seq<Action>, w: string)
    requires w in order
    requires
      var s := Run(cfg, order, Initial(order, now), before);
      w in s.pool.nodes && s.pool.nodes[w].health.state == Healthy
    requires BadFrom(cfg.expected, ReportsOf(actions, w), 0)
    requires |ReportsOf(actions, w)| >= 1 && |ReportsOf(actions, w)| >= cfg.thresholds.failure
    ensures
      var u := Run(cfg, order, Run(cfg, order, Initial(order, now), before), actions);
      w in u.pool.nodes && u.pool.nodes[w].health.state == Unhealthy
  {
    var s := Run(cfg, order, Initial(order, now), before);
    var events := Trace(cfg, order, s, actions, w);
    HealthMovesOn(cfg, order, now, before, actions, w);
    VerdictsOfRun(cfg, order, s, actions, w);
    forall k | 0 <= k < |Verdicts(events)|
      ensures Verdicts(events)[k] == Failed
    {
      JudgeMeans(cfg.expected, ReportsOf(actions, w)[k]);
    }
    FailuresEject(cfg.thresholds, s.pool.nodes[w].health, events);
  }

  lemma FailedAreBad(expected: Expected, verdicts: seq<Verdict>, reports: seq<Report>, n: int)
    requires Judged(expected, verdicts, reports)
    requires exists from: nat :: Block(Failed, verdicts, from, |verdicts|) && |verdicts| - from >= n
    ensures exists from: nat :: BadFrom(expected, reports, from) && |reports| - from >= n
  {
    var from: nat :| Block(Failed, verdicts, from, |verdicts|) && |verdicts| - from >= n;
    forall k | from <= k < |reports|
      ensures Bad(expected, reports[k])
    {
      JudgeMeans(expected, reports[k]);
    }
    assert BadFrom(expected, reports, from);
  }

  /** Probes make a healthy worker unhealthy only when as many of its latest reports in a row were bad. */
  lemma {:induction false} EjectionNeedsBadReports(cfg: Config, order: seq<string>, now: real, actions: seq<Action>,
                                                   report: Report, w: string)
    requires w in order
    requires
      var s := Run(cfg, order, Initial(order, now), actions);
      var t := Step(cfg, order, s, ProbeWorker(w, report));
      && w in s.pool.nodes && s.pool.nodes[w].health.state == Healthy
      && w in t.pool.nodes && t.pool.nodes[w].health.state == Unhealthy
    ensures
      exists from: nat ::
        && BadFrom(cfg.expected, ReportsOf(actions, w) + [report], from)
        && |ReportsOf(actions, w)| + 1 - from >= cfg.thresholds.failure
  {
    var start := Initial(order, now);
    var s := Run(cfg, order, start, actions);
    var events, e := Trace(cfg, order, start, actions, w), Probe(Judge(cfg.expected, report));
    HealthOf(cfg, order, now, actions, w);
    StepMovesHealth(cfg, order, s, ProbeWorker(w, report), w);
    OneEvent(cfg.thresholds, s.pool.nodes[w].health, e);
    ProbeEjectionNeedsAStreak(cfg.thresholds, events, e);
    VerdictsOfRun(cfg, order, start, actions, w);
    assert (events + [e])[..|events|] == events;
    FailedAreBad(cfg.expected, Verdicts(events + [e]), ReportsOf(actions, w) + [report], cfg.thresholds.failure);
  }

  // ----- recovery -----

  /** The reports from one place to another are good. */
  ghost predicate GoodFrom(expected: Expected, reports: seq<Report>, from: nat, to: nat) {
    from <= to <= |reports| && forall k :: from <= k < to ==> Good(expected, reports[k])
  }

  /**
   After a step that turned w from healthy to unhealthy, no call is put on w until at least
   `recovery` reports in a row, all received since, were good.
   */
  lemma {:induction false} EjectedUntilGoodReports(cfg: Config, order: seq<string>, s: State, a: Action,
                                                   actions: seq<Action>, w: string)
    requires w in s.pool.nodes && s.pool.nodes[w].health.state == Healthy
    requires
      var t := Step(cfg, order, s, a);
      w in t.pool.nodes && t.pool.nodes[w].health.state == Unhealthy
    requires actions != []
    requires
      var u := Run(cfg, order, Step(cfg, order, s, a), actions[..|actions| - 1]);
      Selects(u, Step(cfg, order, u, actions[|actions| - 1]), w)
    ensures
      exists from: nat, to: nat ::
        GoodFrom(cfg.expected, ReportsOf(actions, w), from, to) && to - from >= cfg.thresholds.recovery
  {
    var t, reports := Step(cfg, order, s, a), ReportsOf(actions, w);
    var seen := Verdicts(Trace(cfg, order, t, actions, w));
    EjectedWorkerIsIsolated(cfg, order, s, a, actions, w);
    VerdictsOfRun(cfg, order, t, actions, w);
    var from: nat, to: nat :| Block(Compatible, seen, from, to) && to - from >= cfg.thresholds.recovery;
    forall k | from <= k < to
      ensures Good(cfg.expected, reports[k])
    {
      JudgeMeans(cfg.expected, reports[k]);
    }
    assert GoodFrom(cfg.expected, reports, from, to);
  }

  /** No UNAVAILABLE reply comes from w along the run. */
  ghost predicate Spared(cfg: Config, order: seq<string>, s: State, actions: seq<Action>, w: string)
    decreases |actions|
  {
    actions != [] ==>
      var rest := actions[..|actions| - 1];
      Spared(cfg, order, s, rest, w) && !FailsOn(Run(cfg, order, s, rest), actions[|actions| - 1], w)
  }

  lemma {:induction false} SparedSeesProbes(cfg: Config, order: seq<string>, s: State, actions: seq<Action>, w: string)
    requires Spared(cfg, order, s, actions, w)
    ensures Probes(Trace(cfg, order, s, actions, w))
    decreases |actions|
  {
    if actions != [] {
      SparedSeesProbes(cfg, order, s, actions[..|actions| - 1], w);
    }
  }

  ghost predicate Probes(events: seq<Event>) {
    forall k :: 0 <= k < |events| ==> events[k].Probe?
  }

  lemma {:induction false} ProbesAreVerdicts(events: seq<Event>)
    requires Probes(events)
    ensures |Verdicts(events)| == |events|
    ensures forall k :: 0 <= k < |events| ==> events[k] == Probe(Verdicts(events)[k])
  {
    if events != [] {
      ProbesAreVerdicts(events[..|events| - 1]);
    }
  }

  /**
   From any reachable state: as many good reports in a row as the recovery threshold asks for, and no
   others, leave a worker healthy exactly if it was not draining, provided no call fails on it meanwhile.
   */
  lemma GoodReportsRestore(cfg: Config, order: seq<string>, now: real, before: seq<Action>, actions: seq<Action>, w: string)
    requires w in order
    requires Spared(cfg, order, Run(cfg, order, Initial(order, now), before), actions, w)
    requires GoodFrom(cfg.expected, ReportsOf(actions, w), 0, |ReportsOf(actions, w)|)
    requires |ReportsOf(actions, w)| >= 1 && |ReportsOf(actions, w)| >= cfg.thresholds.recovery
    ensures
      var s := Run(cfg, order, Initial(order, now), before);
      var u := Run(cfg, order, s, actions);
      && w in s.pool.nodes && w in u.pool.nodes
      && (u.pool.nodes[w].health.state == Healthy <==> s.pool.nodes[w].health.state != Draining)
  {
    var s, reports := Run(cfg, order, Initial(order, now), before), ReportsOf(actions, w);
    var events := Trace(cfg, order, s, actions, w);
    HealthMovesOn(cfg, order, now, before, actions, w);
    SparedSeesProbes(cfg, order, s, actions, w);
    ProbesAreVerdicts(events);
    VerdictsOfRun(cfg, order, s, actions, w);
    forall k | 0 <= k < |events|
      ensures events[k] == Probe(Compatible)
    {
      JudgeMeans(cfg.expected, reports[k]);
    }
    StreakRestoresUnlessDraining(cfg.thresholds, s.pool.nodes[w].health, events);
  }
}
