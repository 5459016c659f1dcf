/** What a call sees of a round that it holds, while the other calls go on: a response, once there, is never replaced
    or taken away, and an error stays an error. This is what makes it safe to give up the mutex while emitting. */
module HeldRounds {
  import opened Wrappers
  import opened Gradients
  import opened KeyedRounds
  import opened KeyedRuns
  import opened Streaming

  predicate Later(before: Status, after: Status) {
    (before.response.Some? ==> after.response == before.response) && (before.err.Some? ==> after.err.Some?)
  }

  function StatusOf(s: Service, k: Key): Status
    requires k in s.rounds
  {
    Status(s.rounds[k].response, s.rounds[k].err)
  }

  ghost predicate Holds(sys: Sys, c: CallId, k: Key) {
    c in sys.calls && k in sys.calls[c].remaining
  }

  lemma HeldIsThere(cfg: Config, sys: Sys, c: CallId, k: Key)
    requires Safe(cfg, sys) && Holds(sys, c, k)
    ensures k in sys.svc.rounds && HasReceivers(sys.svc)
  {
    assert CallSafe(cfg, sys, c);
    HeldHasReceivers(cfg, sys, c);
  }

  /** Registration only sets the outcome of rounds that have none. */
  lemma RegisteredKeepsStatus(cfg: Config, s: Service, w: Worker, rs: seq<Request>, k: Key)
    requires k in s.rounds
    ensures k in Registered(cfg, s, w, rs).rounds
    ensures Later(StatusOf(s, k), StatusOf(Registered(cfg, s, w, rs), k))
  {
    var n := Accepted(cfg, s, w, rs);
    var inserted := Inserted(s, w, rs[..n]);
    assert k in inserted.rounds && StatusOf(inserted, k) == StatusOf(s, k);
  }

  /** One step of any call. */
  lemma StepSettles(cfg: Config, sys: Sys, step: Step, c: CallId, k: Key)
    requires Safe(cfg, sys) && Busy(sys) && Enabled(cfg, sys, step)
    requires Holds(sys, c, k) && Holds(Next(cfg, sys, step), c, k)
    ensures k in sys.svc.rounds && k in Next(cfg, sys, step).svc.rounds
    ensures Later(StatusOf(sys.svc, k), StatusOf(Next(cfg, sys, step).svc, k))
  {
    NextSafe(cfg, sys, step);
    HeldIsThere(cfg, sys, c, k);
    HeldIsThere(cfg, Next(cfg, sys, step), c, k);
    match step
    case Open(d, unary, rs) =>
      OpenedService(cfg, sys, d, unary, rs);
      RegisteredKeepsStatus(cfg, sys.svc, d.worker, rs, k);
    case Return(d) =>
      LeftAllIs(sys, d, sys.calls[d].order);
      ReleasedKeeps(sys.svc, sys.calls[d].order);
    case Emit(d, k2) =>
    case Quit(d, order) =>
      LeftAllIs(sys, d, order);
      ReleasedKeeps(sys.svc, order);
    case Sleep(d) =>
    case Abort(reason) =>
  }

  /** The call holds the round in every state of the run. */
  ghost predicate HeldThroughout(cfg: Config, sys: Sys, steps: seq<Step>, c: CallId, k: Key)
    requires ValidRun(cfg, sys, steps)
    decreases steps
  {
    Holds(sys, c, k) && (steps != [] ==> HeldThroughout(cfg, Next(cfg, sys, steps[0]), steps[1..], c, k))
  }

  /** Any part of any run: as long as a call holds a round, what it sees of it only grows. */
  lemma {:induction false} HeldSettles(cfg: Config, sys: Sys, steps: seq<Step>, c: CallId, k: Key)
    requires Safe(cfg, sys) && Busy(sys) && ValidRun(cfg, sys, steps)
    requires HeldThroughout(cfg, sys, steps, c, k)
    ensures k in sys.svc.rounds && k in After(cfg, sys, steps).svc.rounds
    ensures Later(StatusOf(sys.svc, k), StatusOf(After(cfg, sys, steps).svc, k))
    decreases steps
  {
    if steps == [] {
      HeldIsThere(cfg, sys, c, k);
    } else {
      NextSafe(cfg, sys, steps[0]);
      NextBusy(cfg, sys, steps[0]);
      StepSettles(cfg, sys, steps[0], c, k);
      HeldSettles(cfg, Next(cfg, sys, steps[0]), steps[1..], c, k);
    }
  }
}
