/** Where the averaged submissions come from: every one is a well-formed group that its Worker sent under that key. */
module KeyedProvenance {
  import opened Wrappers
  import opened Gradients
  import opened KeyedRounds
  import opened KeyedRuns
  import opened KeyedOrder

  /** In one of these steps Worker w opened a batch with group g under key k. */
  ghost predicate SentIn(steps: seq<Step>, w: Worker, k: Key, g: Group) {
    exists i :: 0 <= i < |steps| && Sends(steps[i], w, k, g)
  }

  predicate Sends(step: Step, w: Worker, k: Key, g: Group) {
    step.Open? && step.c.worker == w && Request(k, g) in step.rs
  }

  ghost predicate RoundFrom(cfg: Config, past: seq<Step>, k: Key, submissions: map<Worker, Group>) {
    forall w | w in submissions :: SentIn(past, w, k, submissions[w]) && cfg.wellFormed(submissions[w])
  }

  ghost predicate FromWorkers(cfg: Config, sys: Sys, past: seq<Step>) {
    && (forall k | k in sys.svc.rounds :: RoundFrom(cfg, past, k, sys.svc.rounds[k].submissions))
    && (forall a | a in sys.averagings :: RoundFrom(cfg, past, a.key, a.submissions))
  }

  lemma LaterToo(cfg: Config, past: seq<Step>, step: Step, k: Key, submissions: map<Worker, Group>)
    requires RoundFrom(cfg, past, k, submissions)
    ensures RoundFrom(cfg, past + [step], k, submissions)
  {
    forall w | w in submissions ensures SentIn(past + [step], w, k, submissions[w]) {
      var i :| 0 <= i < |past| && Sends(past[i], w, k, submissions[w]);
      assert Sends((past + [step])[i], w, k, submissions[w]);
    }
  }

  lemma SentNow(past: seq<Step>, step: Step, w: Worker, k: Key, g: Group)
    requires Sends(step, w, k, g)
    ensures SentIn(past + [step], w, k, g)
  {
    assert Sends((past + [step])[|past|], w, k, g);
  }

  lemma {:induction false} GroupForIn(rs: seq<Request>, k: Key)
    requires k in Keys(rs)
    ensures Request(k, GroupFor(rs, k)) in rs
  {
    var r :| r in rs && r.key == k;
    if rs[0].key != k {
      assert r in rs[1..];
      GroupForIn(rs[1..], k);
      assert Request(k, GroupFor(rs[1..], k)) in rs[1..];
    } else {
      assert rs[0] in rs && rs[0] == Request(k, GroupFor(rs, k));
    }
  }

  lemma AcceptedWellFormed(cfg: Config, s: Service, w: Worker, rs: seq<Request>, k: Key)
    requires AcceptedUpTo(cfg, s, w, rs, |rs|) && k in Keys(rs)
    ensures cfg.wellFormed(GroupFor(rs, k))
  {
    GroupForIn(rs, k);
    var i: nat :| i < |rs| && rs[i] == Request(k, GroupFor(rs, k));
    assert RejectionOf(cfg, s, w, rs, i).None?;
  }

  lemma InsertedFrom(cfg: Config, sys: Sys, past: seq<Step>, step: Step, rs: seq<Request>, k: Key)
    requires FromWorkers(cfg, sys, past) && step.Open? && rs <= step.rs
    requires AcceptedUpTo(cfg, sys.svc, step.c.worker, rs, |rs|)
    requires k in Inserted(sys.svc, step.c.worker, rs).rounds
    ensures RoundFrom(cfg, past + [step], k, Inserted(sys.svc, step.c.worker, rs).rounds[k].submissions)
  {
    if k in sys.svc.rounds {
      LaterToo(cfg, past, step, k, sys.svc.rounds[k].submissions);
    }
    if k in Keys(rs) {
      GroupForIn(rs, k);
      assert Sends(step, step.c.worker, k, GroupFor(rs, k));
      SentNow(past, step, step.c.worker, k, GroupFor(rs, k));
      AcceptedWellFormed(cfg, sys.svc, step.c.worker, rs, k);
    }
  }

  lemma OpenedRoundFrom(cfg: Config, sys: Sys, past: seq<Step>, step: Step, k: Key)
    requires FromWorkers(cfg, sys, past) && step.Open?
    requires k in Opened(cfg, sys, step.c, step.unary, step.rs).svc.rounds
    ensures RoundFrom(cfg, past + [step], k, Opened(cfg, sys, step.c, step.unary, step.rs).svc.rounds[k].submissions)
  {
    var n := Accepted(cfg, sys.svc, step.c.worker, step.rs);
    assert n == |step.rs| ==> step.rs[..n] == step.rs;
    AcceptedPrefix(cfg, sys.svc, step.c.worker, step.rs, n);
    InsertedFrom(cfg, sys, past, step, step.rs[..n], k);
  }

  lemma OpenedAveragingFrom(cfg: Config, sys: Sys, past: seq<Step>, step: Step, a: Averaging)
    requires FromWorkers(cfg, sys, past) && step.Open?
    requires a in Opened(cfg, sys, step.c, step.unary, step.rs).averagings
    ensures RoundFrom(cfg, past + [step], a.key, a.submissions)
  {
    if a in sys.averagings {
      LaterToo(cfg, past, step, a.key, a.submissions);
    } else {
      NewAveragingsAre(cfg, Inserted(sys.svc, step.c.worker, step.rs), step.rs);
      InsertedFrom(cfg, sys, past, step, step.rs, a.key);
    }
  }

  lemma OpenFrom(cfg: Config, sys: Sys, past: seq<Step>, step: Step)
    requires FromWorkers(cfg, sys, past) && step.Open?
    ensures FromWorkers(cfg, Opened(cfg, sys, step.c, step.unary, step.rs), past + [step])
  {
    var after := Opened(cfg, sys, step.c, step.unary, step.rs);
    forall k | k in after.svc.rounds ensures RoundFrom(cfg, past + [step], k, after.svc.rounds[k].submissions) {
      OpenedRoundFrom(cfg, sys, past, step, k);
    }
    forall a | a in after.averagings ensures RoundFrom(cfg, past + [step], a.key, a.submissions) {
      OpenedAveragingFrom(cfg, sys, past, step, a);
    }
  }

  lemma OtherFrom(cfg: Config, sys: Sys, past: seq<Step>, step: Step)
    requires FromWorkers(cfg, sys, past) && !step.Open? && Enabled(cfg, sys, step)
    ensures FromWorkers(cfg, Next(cfg, sys, step), past + [step])
  {
    var after := Next(cfg, sys, step);
    match step {
      case Return(c) =>
        LeftAllIs(sys, c, sys.calls[c].order);
        ReleasedKeeps(sys.svc, sys.calls[c].order);
      case Emit(c, k) =>
      case Quit(c, order) =>
        LeftAllIs(sys, c, order);
        ReleasedKeeps(sys.svc, order);
      case Sleep(c) =>
      case Abort(reason) =>
    }
    forall k | k in after.svc.rounds ensures RoundFrom(cfg, past + [step], k, after.svc.rounds[k].submissions) {
      assert k in sys.svc.rounds && after.svc.rounds[k].submissions == sys.svc.rounds[k].submissions;
      LaterToo(cfg, past, step, k, sys.svc.rounds[k].submissions);
    }
    forall a | a in after.averagings ensures RoundFrom(cfg, past + [step], a.key, a.submissions) {
      LaterToo(cfg, past, step, a.key, a.submissions);
    }
  }

  lemma {:induction false} RunFrom(cfg: Config, sys: Sys, past: seq<Step>, steps: seq<Step>)
    requires FromWorkers(cfg, sys, past) && ValidRun(cfg, sys, steps)
    ensures FromWorkers(cfg, After(cfg, sys, steps), past + steps)
    decreases steps
  {
    if steps == [] {
      assert past + steps == past;
    } else {
      NextFrom(cfg, sys, past, steps[0]);
      RunFrom(cfg, Next(cfg, sys, steps[0]), past + [steps[0]], steps[1..]);
      MovedFirst(past, steps);
    }
  }

  lemma MovedFirst<T>(past: seq<T>, steps: seq<T>)
    requires steps != []
    ensures past + [steps[0]] + steps[1..] == past + steps
  {
  }

  lemma NextFrom(cfg: Config, sys: Sys, past: seq<Step>, step: Step)
    requires FromWorkers(cfg, sys, past) && Enabled(cfg, sys, step)
    ensures FromWorkers(cfg, Next(cfg, sys, step), past + [step])
  {
    if step.Open? {
      OpenFrom(cfg, sys, past, step);
    } else {
      OtherFrom(cfg, sys, past, step);
    }
  }

  /** In every run, disciplined or not: what is averaged under a key for a Worker is a group that this Worker sent under
      this key, and that passed the checks on a single group. */
  lemma AveragesWhatWasSent(cfg: Config, steps: seq<Step>, a: Averaging, w: Worker)
    requires ValidRun(cfg, INIT, steps)
    requires a in After(cfg, INIT, steps).averagings && w in a.submissions
    ensures exists i :: 0 <= i < |steps| && Sends(steps[i], w, a.key, a.submissions[w])
    ensures cfg.wellFormed(a.submissions[w])
  {
    RunFrom(cfg, INIT, [], steps);
    assert [] + steps == steps;
    assert RoundFrom(cfg, steps, a.key, a.submissions);
    assert SentIn(steps, w, a.key, a.submissions[w]);
  }
}
