/** What an abort that finds receivers does to the calls that are waiting: each of them can leave and is told the reason,
    and none of them is handed a response any more, not even for a round that had been averaged. */
module KeyedAborts {
  import opened Wrappers
  import opened Gradients
  import opened KeyedRounds
  import opened KeyedRuns
  import opened HeldRounds

  /** Every round that the call still holds has an error. */
  ghost predicate Fails(sys: Sys, c: CallId) {
    c in sys.calls ==> forall k | k in sys.calls[c].remaining :: k in sys.svc.rounds && sys.svc.rounds[k].err.Some?
  }

  lemma SameReason(s: Service, order: seq<Key>, reason: string)
    requires order != [] && forall k | k in order :: k in s.rounds && s.rounds[k].err == Some(reason)
    ensures FirstError(s, order) == Some(reason)
  {
    assert order[0] in order;
  }

  /** Right after the abort: every round that a call holds shows the reason, a unary call can return with it, and a
      streaming call can leave, whatever the others do. */
  lemma AbortFails(cfg: Config, sys: Sys, reason: string, c: CallId)
    requires Safe(cfg, sys) && Busy(sys) && c in sys.calls
    ensures HasReceivers(sys.svc)
    ensures var after := Next(cfg, sys, Abort(reason));
            && c in after.calls && !after.calls[c].asleep && after.calls[c].remaining == sys.calls[c].remaining
            && Fails(after, c) && after.deliveries == sys.deliveries
            && (forall k | k in after.calls[c].remaining :: k in after.svc.rounds && after.svc.rounds[k].err == Some(reason))
            && (after.calls[c].unary ==>
                  && Enabled(cfg, after, Return(c)) && (forall k | k in after.calls[c].order :: k in after.svc.rounds)
                  && FirstError(after.svc, after.calls[c].order) == Some(reason))
  {
    HeldHasReceivers(cfg, sys, c);
    assert CallSafe(cfg, sys, c);
    var after := Next(cfg, sys, Abort(reason));
    if after.calls[c].unary {
      var order := after.calls[c].order;
      assert Permutes(order, after.calls[c].remaining);
      assert CanProceed(after.svc, after.calls[c]);
      SameReason(after.svc, order, reason);
    }
  }

  lemma FailingReturn(s: Service, c: CallId, order: seq<Key>)
    requires forall k | k in order :: k in s.rounds && s.rounds[k].Ready()
    requires forall k | k in order :: s.rounds[k].err.Some?
    ensures Answers(s, c, order) == []
  {
  }

  lemma NothingHandedOut(cfg: Config, sys: Sys, step: Step, c: CallId)
    requires Safe(cfg, sys) && Fails(sys, c) && Enabled(cfg, sys, step) && (step.Open? ==> step.c != c)
    ensures forall d | d in Next(cfg, sys, step).deliveries && d.call == c :: d in sys.deliveries
  {
    match step
    case Open(e, unary, rs) =>
    case Return(e) =>
      LeftAllIs(sys, e, sys.calls[e].order);
      if e == c {
        FailingReturn(sys.svc, c, sys.calls[c].order);
      }
    case Emit(e, k) =>
    case Quit(e, order) => LeftAllIs(sys, e, order);
    case Sleep(e) =>
    case Abort(reason) =>
  }

  lemma RemainingShrinks(cfg: Config, sys: Sys, step: Step, c: CallId)
    requires Enabled(cfg, sys, step) && (step.Open? ==> step.c != c)
    ensures c in Next(cfg, sys, step).calls ==>
              c in sys.calls && Next(cfg, sys, step).calls[c].remaining <= sys.calls[c].remaining
  {
    match step
    case Open(e, unary, rs) =>
    case Return(e) => LeftAllIs(sys, e, sys.calls[e].order);
    case Emit(e, k) =>
    case Quit(e, order) => LeftAllIs(sys, e, order);
    case Sleep(e) =>
    case Abort(reason) =>
  }

  lemma StillFails(cfg: Config, sys: Sys, step: Step, c: CallId)
    requires Safe(cfg, sys) && Busy(sys) && Fails(sys, c) && Enabled(cfg, sys, step) && (step.Open? ==> step.c != c)
    ensures Fails(Next(cfg, sys, step), c)
  {
    var after := Next(cfg, sys, step);
    RemainingShrinks(cfg, sys, step, c);
    if c in after.calls {
      forall k | k in after.calls[c].remaining ensures k in after.svc.rounds && after.svc.rounds[k].err.Some? {
        StepSettles(cfg, sys, step, c, k);
      }
    }
  }

  lemma {:induction false} RunFails(cfg: Config, sys: Sys, steps: seq<Step>, c: CallId)
    requires Safe(cfg, sys) && Busy(sys) && Fails(sys, c) && ValidRun(cfg, sys, steps)
    requires forall step | step in steps :: step.Open? ==> step.c != c
    ensures forall d | d in After(cfg, sys, steps).deliveries && d.call == c :: d in sys.deliveries
    decreases steps
  {
    if steps != [] {
      var step := steps[0];
      assert step in steps && forall later | later in steps[1..] :: later in steps;
      NextSafe(cfg, sys, step);
      NextBusy(cfg, sys, step);
      NothingHandedOut(cfg, sys, step, c);
      StillFails(cfg, sys, step, c);
      RunFails(cfg, Next(cfg, sys, step), steps[1..], c);
    }
  }

  /** Whatever happens after the abort, a call that was waiting then is handed no further response. */
  lemma AbortedGetNothing(cfg: Config, sys: Sys, reason: string, steps: seq<Step>, c: CallId)
    requires Safe(cfg, sys) && Busy(sys) && c in sys.calls
    requires ValidRun(cfg, Next(cfg, sys, Abort(reason)), steps)
    requires forall step | step in steps :: step.Open? ==> step.c != c
    ensures forall d | d in After(cfg, Next(cfg, sys, Abort(reason)), steps).deliveries && d.call == c ::
              d in sys.deliveries
  {
    AbortFails(cfg, sys, reason, c);
    NextSafe(cfg, sys, Abort(reason));
    NextBusy(cfg, sys, Abort(reason));
    RunFails(cfg, Next(cfg, sys, Abort(reason)), steps, c);
  }
}
