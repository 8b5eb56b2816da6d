/** The requests a batcher has accepted, as their callers made them. */
module BatchRequests {
  import opened BatchMachine

  /**
   What the accepted Enqueue actions of a run asked for, in order. A request is accepted unless
   shutdown has begun or a bounded queue is full; its envelope bears the time of its admission.
   */
  function Requests(cfg: Config, s: State, actions: seq<Action>): seq<Envelope>
    requires WellFormed(s)
    decreases |actions|
  {
    if actions == [] then []
    else
      var rest := actions[..|actions| - 1];
      var u, earlier := Run(cfg, s, rest), Requests(cfg, s, rest);
      match actions[|actions| - 1]
      case Enqueue(requestId, inputs, deadline) =>
        if !u.stopping && (cfg.queueCapacity <= 0 || |u.queue| < cfg.queueCapacity)
        then earlier + [Envelope(requestId, inputs, deadline, u.now)] else earlier
      case _ => earlier
  }

  lemma StepAdmits(cfg: Config, s: State, a: Action)
    requires WellFormed(s)
    ensures !a.Enqueue? ==> Step(cfg, s, a).admitted == s.admitted
    ensures a.Enqueue? ==>
              Step(cfg, s, a).admitted
              == if !s.stopping && (cfg.queueCapacity <= 0 || |s.queue| < cfg.queueCapacity)
                 then s.admitted + [Envelope(a.requestId, a.inputs, a.deadline, s.now)] else s.admitted
  {}

  /** Ticket i carries exactly what the i-th accepted request asked for. */
  lemma {:induction false} AdmittedAsAsked(cfg: Config, s: State, actions: seq<Action>)
    requires WellFormed(s)
    ensures Run(cfg, s, actions).admitted == s.admitted + Requests(cfg, s, actions)
    decreases |actions|
  {
    if actions != [] {
      var rest := actions[..|actions| - 1];
      AdmittedAsAsked(cfg, s, rest);
      StepAdmits(cfg, Run(cfg, s, rest), actions[|actions| - 1]);
    }
  }

  /** From the start, the admission record is the list of accepted requests. */
  lemma {:induction false} TicketsAreRequests(cfg: Config, now: real, actions: seq<Action>)
    ensures
      var s := Run(cfg, Initial(now), actions);
      s.admitted == Requests(cfg, Initial(now), actions) && |s.futures| == |Requests(cfg, Initial(now), actions)|
  {
    AdmittedAsAsked(cfg, Initial(now), actions);
    assert Initial(now).admitted + Requests(cfg, Initial(now), actions) == Requests(cfg, Initial(now), actions);
  }
}
