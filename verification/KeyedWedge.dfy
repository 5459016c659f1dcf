/** A batch that is rejected part-way is not rolled back, and only an accepted batch averages its full
    rounds. A rejected batch can therefore leave a round full but unanswered. */
module KeyedWedge {
  import opened Wrappers
  import opened Gradients
  import opened KeyedRounds
  import opened KeyedRuns

  /** Every Worker has submitted, yet there is neither a response nor an error. */
  predicate Wedged(cfg: Config, s: Service, k: Key) {
    k in s.rounds && s.rounds[k].submissions.Keys == cfg.workers && !s.rounds[k].Ready()
  }

  predicate NoneWedged(cfg: Config, s: Service) {
    forall k | k in s.rounds :: !Wedged(cfg, s, k)
  }

  /** w is the only Worker the round is still waiting for. */
  predicate LastMissing(cfg: Config, s: Service, w: Worker, k: Key) {
    Lookup(s, k).submissions.Keys + {w} == cfg.workers && !Lookup(s, k).Ready()
  }

  /** A registration wedges a round exactly when it is rejected after accepting a key of which the
      Worker was the last one missing. */
  lemma WedgesExactlyWhen(cfg: Config, sys: Sys, w: Worker, rs: seq<Request>)
    requires Safe(cfg, sys) && NoneWedged(cfg, sys.svc) && w in cfg.workers
    ensures var n := Accepted(cfg, sys.svc, w, rs);
            NoneWedged(cfg, Registered(cfg, sys.svc, w, rs)) <==>
              (n < |rs| ==> forall k | k in Keys(rs[..n]) :: !LastMissing(cfg, sys.svc, w, k))
  {
    var n := Accepted(cfg, sys.svc, w, rs);
    assert rs[..|rs|] == rs;
    var inserted := Inserted(sys.svc, w, rs[..n]);
    var after := Registered(cfg, sys.svc, w, rs);
    forall k | k in after.rounds
      ensures Wedged(cfg, after, k) <==> n < |rs| && k in Keys(rs[..n]) && LastMissing(cfg, sys.svc, w, k)
    {
      if k in Keys(rs[..n]) {
        AcceptedKey(cfg, sys.svc, w, rs, n, k);
        if n == |rs| {
          FullRoundSettles(cfg, inserted.rounds[k]);
        }
      } else {
        assert k in sys.svc.rounds && after.rounds[k] == sys.svc.rounds[k];
        assert !Wedged(cfg, sys.svc, k);
      }
    }
    if n < |rs| {
      forall k | k in Keys(rs[..n]) ensures k in after.rounds {}
    }
  }

  lemma {:induction false} ReleasedKeepsWedge(cfg: Config, s: Service, order: seq<Key>, k: Key)
    requires Releasable(s, order) && Wedged(cfg, s, k)
    ensures Wedged(cfg, ReleasedAll(s, order), k)
    decreases order
  {
    if order != [] {
      assert forall k2 | k2 in order[1..] :: k2 in order && k2 != order[0];
      ReleasedKeepsWedge(cfg, Released(s, order[0]), order[1..], k);
    }
  }

  lemma OpenKeepsWedge(cfg: Config, s: Service, w: Worker, rs: seq<Request>, k: Key)
    requires Wedged(cfg, s, k) && w in cfg.workers
    ensures Wedged(cfg, Registered(cfg, s, w, rs), k)
  {
    var n := Accepted(cfg, s, w, rs);
    if k in Keys(rs[..n]) {
      AcceptedKey(cfg, s, w, rs, n, k);
    } else if n == |rs| {
      assert rs[..n] == rs;
    }
  }

  /** A wedged round is never answered: it survives every step but an abort, and the callers that wait
      for it are not released. */
  lemma {:induction false} WedgedUntilAbort(cfg: Config, sys: Sys, steps: seq<Step>, k: Key)
    requires ValidRun(cfg, sys, steps) && Wedged(cfg, sys.svc, k)
    requires forall step | step in steps :: !step.Abort?
    ensures Wedged(cfg, After(cfg, sys, steps).svc, k)
    decreases steps
  {
    if steps != [] {
      var step := steps[0];
      assert step in steps;
      match step {
        case Open(c, unary, rs) =>
          OpenedService(cfg, sys, c, unary, rs);
          OpenKeepsWedge(cfg, sys.svc, c.worker, rs, k);
        case Return(c) =>
          LeftAllIs(sys, c, sys.calls[c].order);
          ReleasedKeepsWedge(cfg, sys.svc, sys.calls[c].order, k);
        case Emit(c, k2) =>
        case Quit(c, order) =>
          LeftAllIs(sys, c, order);
          ReleasedKeepsWedge(cfg, sys.svc, order, k);
        case Sleep(c) =>
      }
      assert forall step | step in steps[1..] :: step in steps;
      WedgedUntilAbort(cfg, Next(cfg, sys, step), steps[1..], k);
    }
  }

  /** A concrete input: one Worker, a good group followed by one without a sync round. */
  lemma WedgeExample(cfg: Config, g: Group)
    requires cfg.workers == {"w"} && cfg.wellFormed(g)
    ensures var k := Key("job:0", 1);
            var step := Open(CallId("w", 0), true, [Request(k, g), Request(Key("job:1", 0), g)]);
            Enabled(cfg, INIT, step) && Wedged(cfg, Next(cfg, INIT, step).svc, k)
  {
    var k := Key("job:0", 1);
    var rs := [Request(k, g), Request(Key("job:1", 0), g)];
    assert rs[..0] == [];
    assert RejectionOf(cfg, INIT.svc, "w", rs, 0).None?;
    assert RejectionOf(cfg, INIT.svc, "w", rs, 1).Some?;
    var n := Accepted(cfg, INIT.svc, "w", rs);
    assert n == 1;
    assert rs[..1] == [Request(k, g)];
    assert Keys(rs[..1]) == {k};
  }
}
