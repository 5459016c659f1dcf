/** Who is handed what: a call that runs into no error is handed the response of each of its rounds exactly once. */
module KeyedDeliveries {
  import opened Wrappers
  import opened Gradients
  import opened KeyedRounds
  import opened KeyedRuns
  import opened KeyedOrder
  import opened KeyedProgress
  import opened HeldRounds

  /** How often the call was handed a response for k. */
  function Handed(ds: seq<Delivery>, c: CallId, k: Key): nat {
    if ds == [] then 0
    else
      var last := |ds| - 1;
      Handed(ds[..last], c, k) + (if ds[last].call == c && ds[last].key == k then 1 else 0)
  }

  /** The step is not one in which the call leaves with an error: a failed stream, or a return while a round that the
      call holds has an error. */
  ghost predicate Untroubled(sys: Sys, step: Step, c: CallId) {
    && (step.Quit? ==> step.c != c)
    && (step.Return? && step.c == c && c in sys.calls ==> forall k | k in sys.calls[c].remaining && k in sys.svc.rounds ::
          sys.svc.rounds[k].err.None?)
  }

  lemma HandedOne(ds: seq<Delivery>, d: Delivery, c: CallId, k: Key)
    ensures Handed(ds + [d], c, k) == Handed(ds, c, k) + (if d.call == c && d.key == k then 1 else 0)
  {
    assert (ds + [d])[..|ds|] == ds;
  }

  lemma {:induction false} HandedNone(ds: seq<Delivery>, more: seq<Delivery>, c: CallId, k: Key)
    requires forall d | d in more :: d.call != c || d.key != k
    ensures Handed(ds + more, c, k) == Handed(ds, c, k)
    decreases |more|
  {
    if more == [] {
      assert ds + more == ds;
    } else {
      var last := |more| - 1;
      assert ds + more == (ds + more[..last]) + [more[last]];
      HandedOne(ds + more[..last], more[last], c, k);
      HandedNone(ds, more[..last], c, k);
    }
  }

  lemma {:induction false} HandedOnce(ds: seq<Delivery>, more: seq<Delivery>, c: CallId, k: Key, p: nat)
    requires p < |more| && more[p].call == c && more[p].key == k
    requires forall q | 0 <= q < |more| && q != p :: more[q].key != k
    ensures Handed(ds + more, c, k) == Handed(ds, c, k) + 1
    decreases |more|
  {
    var last := |more| - 1;
    assert ds + more == (ds + more[..last]) + [more[last]];
    HandedOne(ds + more[..last], more[last], c, k);
    if p == last {
      HandedNone(ds, more[..last], c, k);
    } else {
      HandedOnce(ds, more[..last], c, k, p);
    }
  }

  /** A unary call that finds no error returns one response per round. */
  lemma ReturnHands(s: Service, c: CallId, order: seq<Key>, ks: set<Key>, ds: seq<Delivery>, k: Key)
    requires Permutes(order, ks) && forall k2 | k2 in order :: k2 in s.rounds && s.rounds[k2].Ready()
    requires forall k2 | k2 in ks :: k2 in s.rounds && s.rounds[k2].err.None?
    ensures Handed(ds + Answers(s, c, order), c, k) == Handed(ds, c, k) + (if k in ks then 1 else 0)
  {
    var more := Answers(s, c, order);
    if k in ks {
      var p :| 0 <= p < |order| && order[p] == k;
      HandedOnce(ds, more, c, k, p);
    } else {
      HandedNone(ds, more, c, k);
    }
  }

  /** Every round that the call has left since was handed to it once. */
  ghost predicate Accounts(a: Sys, b: Sys, c: CallId, k: Key) {
    Handed(b.deliveries, c, k) == Handed(a.deliveries, c, k) + (if Holds(a, c, k) && !Holds(b, c, k) then 1 else 0)
  }

  lemma ReturnAccounts(cfg: Config, sys: Sys, e: CallId, c: CallId, k: Key)
    requires Safe(cfg, sys) && Enabled(cfg, sys, Return(e)) && Untroubled(sys, Return(e), c)
    ensures Accounts(sys, Next(cfg, sys, Return(e)), c, k)
  {
    var order := sys.calls[e].order;
    LeftAllIs(sys, e, order);
    if e == c {
      ReturnHands(sys.svc, c, order, sys.calls[c].remaining, sys.deliveries, k);
    } else {
      HandedNone(sys.deliveries, Answers(sys.svc, e, order), c, k);
    }
  }

  lemma EmitHolds(cfg: Config, sys: Sys, e: CallId, k2: Key, c: CallId, k: Key)
    requires Enabled(cfg, sys, Emit(e, k2))
    ensures var after := Next(cfg, sys, Emit(e, k2));
            && after.deliveries == sys.deliveries + [Delivery(e, k2, sys.svc.rounds[k2].response.value)]
            && (Holds(after, c, k) <==> Holds(sys, c, k) && !(e == c && k2 == k)) && Holds(sys, e, k2)
  {
    assert k in sys.calls[e].remaining && k != k2 ==> k in sys.calls[e].remaining - {k2};
  }

  lemma EmitAccounts(cfg: Config, sys: Sys, e: CallId, k2: Key, c: CallId, k: Key)
    requires Enabled(cfg, sys, Emit(e, k2))
    ensures Accounts(sys, Next(cfg, sys, Emit(e, k2)), c, k)
  {
    EmitHolds(cfg, sys, e, k2, c, k);
    HandedOne(sys.deliveries, Delivery(e, k2, sys.svc.rounds[k2].response.value), c, k);
  }

  lemma StepAccounts(cfg: Config, sys: Sys, step: Step, c: CallId, k: Key)
    requires Safe(cfg, sys) && Enabled(cfg, sys, step) && Untroubled(sys, step, c) && KeepsMaps(sys, step)
    requires step.Open? ==> step.c != c
    ensures Accounts(sys, Next(cfg, sys, step), c, k)
    ensures Holds(Next(cfg, sys, step), c, k) ==> Holds(sys, c, k)
  {
    match step
    case Open(e, unary, rs) =>
    case Return(e) =>
      LeftAllIs(sys, e, sys.calls[e].order);
      ReturnAccounts(cfg, sys, e, c, k);
    case Emit(e, k2) => EmitAccounts(cfg, sys, e, k2, c, k);
    case Quit(e, order) => LeftAllIs(sys, e, order);
    case Sleep(e) =>
    case Abort(reason) =>
  }

  /** The call does not leave with an error in this part of the run, its id is not used again, and the maps are kept. */
  ghost predicate GoesWell(cfg: Config, sys: Sys, steps: seq<Step>, c: CallId)
    requires ValidRun(cfg, sys, steps)
    decreases steps
  {
    steps == [] ||
    (&& Untroubled(sys, steps[0], c) && KeepsMaps(sys, steps[0]) && (steps[0].Open? ==> steps[0].c != c)
     && GoesWell(cfg, Next(cfg, sys, steps[0]), steps[1..], c))
  }

  /** In any part of any run in which a call does not leave with an error: it was handed one response for each round
      that it held before and has left since, and none for any other key. */
  lemma {:induction false} HandedExactlyOnce(cfg: Config, sys: Sys, steps: seq<Step>, c: CallId, k: Key)
    requires Safe(cfg, sys) && Busy(sys) && ValidRun(cfg, sys, steps) && GoesWell(cfg, sys, steps, c)
    ensures var end := After(cfg, sys, steps);
            Accounts(sys, end, c, k) && (Holds(end, c, k) ==> Holds(sys, c, k))
    decreases steps
  {
    if steps != [] {
      StepAccounts(cfg, sys, steps[0], c, k);
      NextSafe(cfg, sys, steps[0]);
      NextBusy(cfg, sys, steps[0]);
      HandedExactlyOnce(cfg, Next(cfg, sys, steps[0]), steps[1..], c, k);
    }
  }

  // ---------- all Workers send the same sequence ----------

  /** No call leaves with an error in this part of the run. */
  ghost predicate MovesWell(cfg: Config, p: Program, job: Job, ms: seq<Move>)
    requires Moves(cfg, p, job, ms)
    decreases ms
  {
    ms == [] ||
    (&& (ms[0].Wait? ==> forall c :: Untroubled(job.sys, ms[0].step, c))
     && MovesWell(cfg, p, Moved(cfg, p, job, ms[0]), ms[1..]))
  }

  /** Worker w was handed key number j once if it has sent it and does not hold it, and not at all otherwise. */
  ghost predicate HandedTo(p: Program, job: Job, w: Worker, j: nat)
    requires j < |p.keys|
  {
    var c := CallId(w, 0);
    && Handed(job.sys.deliveries, c, p.keys[j]) == (if Past(job, w, j) && !Holds(job.sys, c, p.keys[j]) then 1 else 0)
    && (Holds(job.sys, c, p.keys[j]) ==> Past(job, w, j))
  }

  lemma BatchKey(p: Program, w: Worker, from: nat, n: nat, j: nat)
    requires from + n <= |p.keys| && j < |p.keys|
    requires forall i: nat, h: nat | i < h < |p.keys| :: p.keys[i] != p.keys[h]
    ensures p.keys[j] in Keys(Batch(p, w, from, n)) <==> from <= j < from + n
  {
    var rs := Batch(p, w, from, n);
    if from <= j < from + n {
      assert rs[j - from] in rs;
    }
  }

  lemma AdmittedHolds(cfg: Config, sys: Sys, e: CallId, unary: bool, rs: seq<Request>, c: CallId, k: Key)
    requires Accepted(cfg, sys.svc, e.worker, rs) == |rs|
    ensures var after := Opened(cfg, sys, e, unary, rs);
            && after.deliveries == sys.deliveries
            && (Holds(after, c, k) <==> if c == e then k in Keys(rs) else Holds(sys, c, k))
  {
  }

  lemma BatchAccepted(cfg: Config, p: Program, job: Job, w: Worker, n: nat)
    requires Proper(cfg, p) && Good(cfg, p, job) && w in cfg.workers && job.pos[w] + n <= |p.keys|
    ensures Accepted(cfg, job.sys.svc, w, Batch(p, w, job.pos[w], n)) == n
  {
    SentAccepted(cfg, p, job, w, n);
  }

  lemma SendHands(cfg: Config, p: Program, job: Job, w: Worker, n: nat, unary: bool, v: Worker, j: nat)
    requires Proper(cfg, p) && Good(cfg, p, job) && CanMove(cfg, p, job, Send(w, n, unary))
    requires j < |p.keys| && HandedTo(p, job, v, j)
    ensures HandedTo(p, Moved(cfg, p, job, Send(w, n, unary)), v, j)
  {
    BatchAccepted(cfg, p, job, w, n);
    AdmittedHolds(cfg, job.sys, CallId(w, 0), unary, Batch(p, w, job.pos[w], n), CallId(v, 0), p.keys[j]);
    BatchKey(p, w, job.pos[w], n, j);
  }

  lemma WaitHands(cfg: Config, p: Program, job: Job, step: Step, v: Worker, j: nat)
    requires Good(cfg, p, job) && CanMove(cfg, p, job, Wait(step)) && Untroubled(job.sys, step, CallId(v, 0))
    requires j < |p.keys| && HandedTo(p, job, v, j)
    ensures HandedTo(p, Moved(cfg, p, job, Wait(step)), v, j)
  {
    StepAccounts(cfg, job.sys, step, CallId(v, 0), p.keys[j]);
  }

  lemma {:induction false} MovesHand(cfg: Config, p: Program, job: Job, ms: seq<Move>, v: Worker, j: nat)
    requires Proper(cfg, p) && Good(cfg, p, job) && Moves(cfg, p, job, ms) && MovesWell(cfg, p, job, ms)
    requires j < |p.keys| && HandedTo(p, job, v, j)
    ensures HandedTo(p, MovedAll(cfg, p, job, ms), v, j)
    decreases ms
  {
    if ms != [] {
      MovedGood(cfg, p, job, ms[0]);
      match ms[0] {
        case Send(w, n, unary) => SendHands(cfg, p, job, w, n, unary, v, j);
        case Wait(step) => WaitHands(cfg, p, job, step, v, j);
      }
      MovesHand(cfg, p, Moved(cfg, p, job, ms[0]), ms[1..], v, j);
    }
  }

  /** When a job whose Workers all send the same sequence is finished and no call left with an error, every Worker has
      been handed the response of every key exactly once. */
  lemma EveryKeyHandedOnce(cfg: Config, p: Program, ms: seq<Move>, w: Worker, j: nat)
    requires Proper(cfg, p) && Moves(cfg, p, Start(cfg), ms) && MovesWell(cfg, p, Start(cfg), ms)
    requires Finished(cfg, p, MovedAll(cfg, p, Start(cfg), ms)) && w in cfg.workers && j < |p.keys|
    ensures Handed(MovedAll(cfg, p, Start(cfg), ms).sys.deliveries, CallId(w, 0), p.keys[j]) == 1
  {
    StartGood(cfg, p);
    MovesHand(cfg, p, Start(cfg), ms, w, j);
    MovesGood(cfg, p, Start(cfg), ms);
  }
}
