/** One service, both barriers: what the aborts of a job that uses the keyed barrier do to the dense gate. */
module SharedAbort {
  import opened Wrappers
  import opened Gradients
  import Rounds = KeyedRounds
  import Keyed = KeyedRuns
  import Dense = DenseRounds

  datatype Config = Config(keyed: Rounds.Config, dense: Dense.Config)

  datatype Sys = Sys(keyed: Keyed.Sys, dense: Dense.Sys)

  const INIT := Sys(Keyed.INIT, Dense.INIT)

  /** A keyed step; an abort also acts on the dense round, and looks for receivers in both barriers. */
  function Next(cfg: Config, sys: Sys, step: Keyed.Step): Sys
    requires Keyed.Enabled(cfg.keyed, sys.keyed, step) && sys.dense.current in sys.dense.heap
  {
    Sys(Keyed.Next(cfg.keyed, sys.keyed, step),
        if step.Abort? then Dense.Next(cfg.dense, sys.dense, Dense.Abort(step.reason, Rounds.HasReceivers(sys.keyed.svc)))
        else sys.dense)
  }

  ghost predicate ValidRun(cfg: Config, sys: Sys, steps: seq<Keyed.Step>)
    decreases steps
  {
    steps == [] ||
    (Keyed.Enabled(cfg.keyed, sys.keyed, steps[0]) && sys.dense.current in sys.dense.heap &&
     ValidRun(cfg, Next(cfg, sys, steps[0]), steps[1..]))
  }

  ghost function After(cfg: Config, sys: Sys, steps: seq<Keyed.Step>): Sys
    requires ValidRun(cfg, sys, steps)
    decreases steps
  {
    if steps == [] then sys else After(cfg, Next(cfg, sys, steps[0]), steps[1..])
  }

  /** Whether the last abort of a run found a keyed receiver; None if there was no abort. */
  ghost function LastAbort(cfg: Config, sys: Sys, steps: seq<Keyed.Step>): Option<bool>
    requires ValidRun(cfg, sys, steps)
    decreases steps
  {
    if steps == [] then None
    else
      var later := LastAbort(cfg, Next(cfg, sys, steps[0]), steps[1..]);
      if later.Some? then later
      else if steps[0].Abort? then Some(Rounds.HasReceivers(sys.keyed.svc))
      else None
  }

  /** No call has joined the dense round. */
  ghost predicate NobodyInside(d: Dense.Sys) {
    d.current in d.heap && d.heap[d.current].waiting == 0 && Dense.InsideCalls(d.calls) == {}
  }

  lemma AbortDense(cfg: Dense.Config, d: Dense.Sys, reason: string, keyedWaiters: bool)
    requires NobodyInside(d)
    ensures var after := Dense.Next(cfg, d, Dense.Abort(reason, keyedWaiters));
            NobodyInside(after) && (Dense.Stuck(after) <==> keyedWaiters)
  {
    var after := Dense.Next(cfg, d, Dense.Abort(reason, keyedWaiters));
    assert Dense.InsideCalls(after.calls) == Dense.InsideCalls(d.calls);
  }

  /** A run of the keyed barrier in which no dense call is inside leaves the dense gate stuck exactly when its last
      abort found a keyed receiver. */
  lemma {:induction false} StuckExactlyWhen(cfg: Config, sys: Sys, steps: seq<Keyed.Step>)
    requires NobodyInside(sys.dense) && ValidRun(cfg, sys, steps)
    ensures NobodyInside(After(cfg, sys, steps).dense)
    ensures Dense.Stuck(After(cfg, sys, steps).dense) <==>
            match LastAbort(cfg, sys, steps)
            case None => Dense.Stuck(sys.dense)
            case Some(found) => found
    decreases steps
  {
    if steps != [] {
      if steps[0].Abort? {
        AbortDense(cfg.dense, sys.dense, steps[0].reason, Rounds.HasReceivers(sys.keyed.svc));
      }
      StuckExactlyWhen(cfg, Next(cfg, sys, steps[0]), steps[1..]);
    }
  }

  lemma InitInside()
    ensures NobodyInside(INIT.dense) && !Dense.Stuck(INIT.dense)
  {
  }

  // ---------- one Worker of two is waiting ----------

  function FirstAnswer(submissions: map<Rounds.Worker, Group>): Rounds.Outcome {
    Rounds.Failure("never asked")
  }

  /** A job of two Workers. */
  ghost function TwoWorkers(): Config {
    Config(Rounds.Config({"a", "b"}, g => true, FirstAnswer), Dense.Config(2, gradients => Dense.Failure("never asked")))
  }

  ghost function WaitThenAbort(): seq<Keyed.Step> {
    [Keyed.Open(Keyed.CallId("a", 0), true, [Rounds.Request(Rounds.Key("layer", 1), Group([]))]), Keyed.Abort("stopped")]
  }

  /** One Worker waits for the other, the job is aborted, and from then on no dense call can enter. */
  lemma StuckExample()
    ensures ValidRun(TwoWorkers(), INIT, WaitThenAbort())
    ensures Dense.Stuck(After(TwoWorkers(), INIT, WaitThenAbort()).dense)
  {
    var cfg, steps := TwoWorkers(), WaitThenAbort();
    var open := steps[0];
    var waiting := Next(cfg, INIT, open);
    WorkerWaits();
    assert steps[1..] == [Keyed.Abort("stopped")] && steps[1..][1..] == [];
    assert ValidRun(cfg, Next(cfg, waiting, steps[1]), []);
    assert ValidRun(cfg, waiting, steps[1..]);
    assert LastAbort(cfg, waiting, steps[1..]) == Some(true);
    InitInside();
    StuckExactlyWhen(cfg, INIT, steps);
  }

  lemma WorkerWaits()
    ensures Keyed.Enabled(TwoWorkers().keyed, Keyed.INIT, WaitThenAbort()[0])
    ensures Rounds.HasReceivers(Keyed.Next(TwoWorkers().keyed, Keyed.INIT, WaitThenAbort()[0]).svc)
  {
    var cfg, step := TwoWorkers().keyed, WaitThenAbort()[0];
    var k, rs := Rounds.Key("layer", 1), step.rs;
    Keyed.OpenedService(cfg, Keyed.INIT, step.c, step.unary, rs);
    assert rs[..0] == [] && rs[..1] == rs;
    assert Rounds.RejectionOf(cfg, Keyed.INIT.svc, "a", rs, 0).None?;
    assert Rounds.Accepted(cfg, Keyed.INIT.svc, "a", rs, 1) == 1;
    assert Rounds.Accepted(cfg, Keyed.INIT.svc, "a", rs) == 1;
    assert rs[0] in rs && k in Rounds.Keys(rs);
    var after := Rounds.Registered(cfg, Keyed.INIT.svc, "a", rs);
    assert k in after.rounds && after.rounds[k].waiting == 1;
  }
}
