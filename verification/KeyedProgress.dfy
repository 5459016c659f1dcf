/** Progress of the keyed barrier: all Workers send the same sequence of keys, each cuts it into batches
    as it likes and has one batch outstanding. Then the barrier never blocks and every run ends. */
module KeyedProgress {
  import opened Wrappers
  import opened Gradients
  import opened KeyedRounds
  import opened KeyedRuns
  import opened Sums

  datatype Program = Program(keys: seq<Key>, group: (Worker, nat) -> Group)

  ghost predicate Proper(cfg: Config, p: Program) {
    && cfg.workers != {}
    && (forall i: nat, j: nat | i < j < |p.keys| :: p.keys[i] != p.keys[j])
    && (forall i: nat, j: nat | i < j < |p.keys| && p.keys[i].id == p.keys[j].id :: p.keys[i].round < p.keys[j].round)
    && (forall i: nat | i < |p.keys| :: p.keys[i].round > 0)
    && (forall w, i: nat | w in cfg.workers && i < |p.keys| :: cfg.wellFormed(p.group(w, i)))
  }

  /** `pos` is how far each Worker has got in the sequence. */
  datatype Job = Job(sys: Sys, pos: map<Worker, nat>)

  datatype Move =
    | Send(w: Worker, n: nat, unary: bool)
    | Wait(step: Step)

  function Batch(p: Program, w: Worker, from: nat, n: nat): seq<Request>
    requires from + n <= |p.keys|
  {
    seq(n, i requires 0 <= i < n => Request(p.keys[from + i], p.group(w, from + i)))
  }

  function Advanced(pos: map<Worker, nat>, w: Worker, n: nat): map<Worker, nat>
    requires w in pos
  {
    pos[w := pos[w] + n]
  }

  ghost predicate CanMove(cfg: Config, p: Program, job: Job, m: Move) {
    match m
    case Send(w, n, unary) =>
      && w in cfg.workers && w in job.pos && CallId(w, 0) !in job.sys.calls
      && 0 < n && job.pos[w] + n <= |p.keys|
    case Wait(step) =>
      (step.Return? || step.Emit? || step.Quit? || step.Sleep?) && Enabled(cfg, job.sys, step)
  }

  ghost function Moved(cfg: Config, p: Program, job: Job, m: Move): Job
    requires CanMove(cfg, p, job, m)
  {
    match m
    case Send(w, n, unary) =>
      Job(Opened(cfg, job.sys, CallId(w, 0), unary, Batch(p, w, job.pos[w], n)), Advanced(job.pos, w, n))
    case Wait(step) => Job(Next(cfg, job.sys, step), job.pos)
  }

  function Start(cfg: Config): Job {
    Job(INIT, map w | w in cfg.workers :: 0)
  }

  // ---------- the invariant ----------

  /** Worker w has sent key number j. */
  predicate Past(job: Job, w: Worker, j: nat) {
    w in job.pos && j < job.pos[w]
  }

  /** Key number j is open with exactly the submissions of the Workers past it, or nobody has sent it,
      or everybody has. */
  ghost predicate KeyTracked(cfg: Config, p: Program, job: Job, j: nat)
    requires j < |p.keys|
  {
    var k := p.keys[j];
    if k in job.sys.svc.rounds then
      forall w | w in cfg.workers :: w in job.sys.svc.rounds[k].submissions <==> Past(job, w, j)
    else
      (forall w | w in cfg.workers :: !Past(job, w, j)) || (forall w | w in cfg.workers :: Past(job, w, j))
  }

  ghost predicate FullReady(cfg: Config, s: Service, k: Key) {
    k in s.rounds && s.rounds[k].submissions.Keys == cfg.workers ==> s.rounds[k].Ready()
  }

  ghost predicate CallTracked(p: Program, job: Job, c: CallId)
    requires c in job.sys.calls
  {
    && c.number == 0
    && (forall k | k in job.sys.calls[c].remaining :: exists j: nat :: j < |p.keys| && p.keys[j] == k && Past(job, c.worker, j))
  }

  ghost predicate CompletedPast(cfg: Config, p: Program, job: Job, id: string)
    requires id in job.sys.svc.completed
  {
    exists j: nat :: j < |p.keys| && p.keys[j] == Key(id, job.sys.svc.completed[id])
      && (forall w | w in cfg.workers :: Past(job, w, j))
  }

  ghost predicate Tracked(cfg: Config, p: Program, job: Job) {
    && job.pos.Keys == cfg.workers
    && (forall w | w in job.pos :: job.pos[w] <= |p.keys|)
    && (forall j: nat {:trigger KeyTracked(cfg, p, job, j)} | j < |p.keys| :: KeyTracked(cfg, p, job, j))
    && (forall k {:trigger FullReady(cfg, job.sys.svc, k)} | k in job.sys.svc.rounds :: FullReady(cfg, job.sys.svc, k))
    && (forall c {:trigger CallTracked(p, job, c)} | c in job.sys.calls :: CallTracked(p, job, c))
    && (forall id {:trigger CompletedPast(cfg, p, job, id)} | id in job.sys.svc.completed :: CompletedPast(cfg, p, job, id))
  }

  ghost predicate Good(cfg: Config, p: Program, job: Job) {
    Safe(cfg, job.sys) && Busy(job.sys) && Tracked(cfg, p, job)
  }

  predicate Finished(cfg: Config, p: Program, job: Job) {
    job.sys.calls == map[] && (forall w | w in job.pos :: job.pos[w] == |p.keys|)
  }

  // ---------- nothing blocks ----------

  lemma {:induction false} Slowest(ws: set<Worker>, pos: map<Worker, nat>) returns (w: Worker)
    requires ws != {} && ws <= pos.Keys
    ensures w in ws && forall w2 | w2 in ws :: pos[w] <= pos[w2]
    decreases |ws|
  {
    w :| w in ws;
    if ws != {w} {
      var v := Slowest(ws - {w}, pos);
      if pos[v] < pos[w] {
        w := v;
      }
    }
  }

  lemma {:induction false} SomeOrder(ks: set<Key>) returns (order: seq<Key>)
    ensures Permutes(order, ks)
    decreases |ks|
  {
    if ks == {} {
      order := [];
    } else {
      var k :| k in ks;
      var rest := SomeOrder(ks - {k});
      order := [k] + rest;
    }
  }

  /** A key that every Worker has sent is answered, if its round is still open. */
  lemma AllPastReady(cfg: Config, p: Program, job: Job, j: nat)
    requires Good(cfg, p, job) && j < |p.keys| && p.keys[j] in job.sys.svc.rounds
    requires forall w | w in cfg.workers :: Past(job, w, j)
    ensures ReadyAt(job.sys.svc, p.keys[j])
  {
    var k := p.keys[j];
    assert KeyTracked(cfg, p, job, j);
    assert RoundSafe(cfg, job.sys, k);
    assert job.sys.svc.rounds[k].submissions.Keys == cfg.workers;
    assert FullReady(cfg, job.sys.svc, k);
  }

  lemma CallReady(cfg: Config, p: Program, job: Job, c: CallId)
    requires Good(cfg, p, job) && c in job.sys.calls
    requires forall w | w in cfg.workers :: c.worker in job.pos && w in job.pos && job.pos[c.worker] <= job.pos[w]
    ensures CanProceed(job.sys.svc, job.sys.calls[c])
  {
    assert CallSafe(cfg, job.sys, c) && CallTracked(p, job, c);
    forall k | k in job.sys.calls[c].remaining ensures ReadyAt(job.sys.svc, k) {
      var j: nat :| j < |p.keys| && p.keys[j] == k && Past(job, c.worker, j);
      AllPastReady(cfg, p, job, j);
    }
    assert job.sys.calls[c].remaining != {};
  }

  /** A call whose loop guard has become false is awake and can take a step other than going to sleep. */
  lemma ReadyCallMoves(cfg: Config, sys: Sys, c: CallId) returns (step: Step)
    requires Safe(cfg, sys) && c in sys.calls
    requires CanProceed(sys.svc, sys.calls[c])
    ensures step.Return? || step.Emit? || step.Quit?
    ensures Enabled(cfg, sys, step)
  {
    assert CallSafe(cfg, sys, c);
    if sys.calls[c].unary {
      step := Return(c);
    } else {
      var k :| k in sys.calls[c].remaining && ReadyAt(sys.svc, k);
      if sys.svc.rounds[k].err.None? {
        step := Emit(c, k);
      } else {
        var order := SomeOrder(sys.calls[c].remaining);
        step := Quit(c, order);
      }
    }
  }

  /** In every state a run can reach, unless all is sent and answered, some Worker can send its next key
      or some call can deliver: nobody waits for a wake-up that has already happened. */
  lemma NeverBlocked(cfg: Config, p: Program, job: Job) returns (m: Move)
    requires Proper(cfg, p) && Good(cfg, p, job) && !Finished(cfg, p, job)
    ensures CanMove(cfg, p, job, m) && (m.Wait? ==> !m.step.Sleep?)
  {
    var w := Slowest(cfg.workers, job.pos);
    var c := CallId(w, 0);
    if c in job.sys.calls {
      CallReady(cfg, p, job, c);
      var step := ReadyCallMoves(cfg, job.sys, c);
      m := Wait(step);
    } else if job.pos[w] < |p.keys| {
      m := Send(w, 1, true);
    } else {
      assert forall v | v in job.pos :: job.pos[v] == |p.keys|;
      var d :| d in job.sys.calls;
      assert CallSafe(cfg, job.sys, d);
      CallReady(cfg, p, job, d);
      var step := ReadyCallMoves(cfg, job.sys, d);
      m := Wait(step);
    }
  }

  // ---------- sending ----------

  lemma BatchKeys(p: Program, w: Worker, from: nat, n: nat)
    requires from + n <= |p.keys|
    ensures forall k :: k in Keys(Batch(p, w, from, n)) <==>
              exists j: nat :: from <= j < from + n && p.keys[j] == k
  {
    var rs := Batch(p, w, from, n);
    forall k | k in Keys(rs) ensures exists j: nat :: from <= j < from + n && p.keys[j] == k {
      var r :| r in rs && r.key == k;
      var i :| 0 <= i < n && rs[i] == r;
      assert p.keys[from + i] == k;
    }
    forall j: nat | from <= j < from + n ensures p.keys[j] in Keys(rs) {
      assert rs[j - from] in rs;
    }
  }

  /** The latest completed round of an id comes before any key of that id that some Worker still has to send. */
  lemma CompletedBefore(cfg: Config, p: Program, job: Job, w: Worker, j: nat)
    requires Proper(cfg, p) && Tracked(cfg, p, job)
    requires w in cfg.workers && j < |p.keys| && !Past(job, w, j)
    requires p.keys[j].id in job.sys.svc.completed
    ensures job.sys.svc.completed[p.keys[j].id] < p.keys[j].round
  {
    var id := p.keys[j].id;
    assert CompletedPast(cfg, p, job, id);
    var j2: nat :| j2 < |p.keys| && p.keys[j2] == Key(id, job.sys.svc.completed[id])
                   && forall v | v in cfg.workers :: Past(job, v, j2);
    assert Past(job, w, j2);
    assert j2 < j;
  }

  /** Key number j of the sequence is neither stale nor a duplicate when its Worker gets to it. */
  lemma NextKeyAccepted(cfg: Config, p: Program, job: Job, w: Worker, n: nat, i: nat)
    requires Proper(cfg, p) && Good(cfg, p, job)
    requires w in cfg.workers && job.pos[w] + n <= |p.keys| && i < n
    ensures RejectionOf(cfg, job.sys.svc, w, Batch(p, w, job.pos[w], n), i).None?
  {
    var from := job.pos[w];
    var rs := Batch(p, w, from, n);
    var j := from + i;
    var k := p.keys[j];
    assert rs[i] == Request(k, p.group(w, j));
    assert KeyTracked(cfg, p, job, j);
    forall r | r in rs[..i] ensures r.key != k {
      var i2 :| 0 <= i2 < i && rs[i2] == r;
      assert p.keys[from + i2] != p.keys[j];
    }
    if k.id in job.sys.svc.completed {
      CompletedBefore(cfg, p, job, w, j);
    }
  }

  lemma SentAccepted(cfg: Config, p: Program, job: Job, w: Worker, n: nat)
    requires Proper(cfg, p) && Good(cfg, p, job)
    requires w in cfg.workers && job.pos[w] + n <= |p.keys|
    ensures Accepted(cfg, job.sys.svc, w, Batch(p, w, job.pos[w], n)) == n
  {
    forall i: nat | i < n ensures RejectionOf(cfg, job.sys.svc, w, Batch(p, w, job.pos[w], n), i).None? {
      NextKeyAccepted(cfg, p, job, w, n, i);
    }
  }

  ghost function Sending(cfg: Config, p: Program, job: Job, w: Worker, n: nat, unary: bool): Job
    requires w in job.pos && job.pos[w] + n <= |p.keys|
  {
    Job(Admitted(cfg, job.sys, CallId(w, 0), unary, Batch(p, w, job.pos[w], n)), Advanced(job.pos, w, n))
  }

  /** Every batch of the sequence is accepted whole. */
  lemma SentWhole(cfg: Config, p: Program, job: Job, w: Worker, n: nat, unary: bool)
    requires Proper(cfg, p) && Good(cfg, p, job)
    requires w in cfg.workers && job.pos[w] + n <= |p.keys|
    ensures Opened(cfg, job.sys, CallId(w, 0), unary, Batch(p, w, job.pos[w], n)) == Sending(cfg, p, job, w, n, unary).sys
  {
    SentAccepted(cfg, p, job, w, n);
    OpenedWhole(cfg, job.sys, CallId(w, 0), unary, Batch(p, w, job.pos[w], n));
  }

  /** What the service looks like at one key after a batch was accepted. */
  lemma SentRound(cfg: Config, p: Program, job: Job, w: Worker, n: nat, j: nat)
    requires w in cfg.workers && job.pos.Keys == cfg.workers && job.pos[w] + n <= |p.keys|
    requires Proper(cfg, p) && j < |p.keys| && KeyTracked(cfg, p, job, j)
    ensures var rs := Batch(p, w, job.pos[w], n);
            KeyTracked(cfg, p, Job(job.sys.(svc := Settled(cfg, Inserted(job.sys.svc, w, rs), Keys(rs))),
                                   job.pos[w := job.pos[w] + n]), j)
  {
    var rs := Batch(p, w, job.pos[w], n);
    InBatch(cfg, p, w, job.pos[w], n, j);
    SentSubmissions(cfg, job.sys.svc, w, rs, p.keys[j]);
    var svc := Settled(cfg, Inserted(job.sys.svc, w, rs), Keys(rs));
    var after := Job(job.sys.(svc := svc), job.pos[w := job.pos[w] + n]);
    forall v | v in cfg.workers
      ensures Past(after, v, j) <==> Past(job, v, j) || (v == w && p.keys[j] in Keys(rs))
    {
    }
  }

  lemma InBatch(cfg: Config, p: Program, w: Worker, from: nat, n: nat, j: nat)
    requires Proper(cfg, p) && from + n <= |p.keys| && j < |p.keys|
    ensures p.keys[j] in Keys(Batch(p, w, from, n)) <==> from <= j < from + n
  {
    BatchKeys(p, w, from, n);
    if p.keys[j] in Keys(Batch(p, w, from, n)) {
      var i: nat :| from <= i < from + n && p.keys[i] == p.keys[j];
      assert i == j;
    }
  }

  lemma SentReady(cfg: Config, s: Service, w: Worker, rs: seq<Request>, k: Key)
    requires k !in Keys(rs) ==> FullReady(cfg, s, k)
    ensures FullReady(cfg, Settled(cfg, Inserted(s, w, rs), Keys(rs)), k)
  {
    if k in Keys(rs) {
      FullRoundSettles(cfg, Inserted(s, w, rs).rounds[k]);
    }
  }

  lemma SentCompleted(cfg: Config, p: Program, job: Job, after: Job, w: Worker, n: nat)
    requires w in job.pos && after.pos == job.pos[w := job.pos[w] + n]
    requires after.sys.svc.completed == job.sys.svc.completed
    requires forall id {:trigger CompletedPast(cfg, p, job, id)} | id in job.sys.svc.completed :: CompletedPast(cfg, p, job, id)
    ensures forall id {:trigger CompletedPast(cfg, p, after, id)} | id in after.sys.svc.completed :: CompletedPast(cfg, p, after, id)
  {
    forall id | id in after.sys.svc.completed ensures CompletedPast(cfg, p, after, id) {
      assert CompletedPast(cfg, p, job, id);
      var j: nat :| j < |p.keys| && p.keys[j] == Key(id, job.sys.svc.completed[id])
                    && forall v | v in cfg.workers :: Past(job, v, j);
      forall v | v in cfg.workers ensures Past(after, v, j) {
        assert Past(job, v, j);
      }
    }
  }

  lemma SentKeys(cfg: Config, p: Program, job: Job, w: Worker, n: nat, unary: bool)
    requires Proper(cfg, p) && Tracked(cfg, p, job) && w in cfg.workers && job.pos[w] + n <= |p.keys|
    ensures forall j: nat | j < |p.keys| :: KeyTracked(cfg, p, Sending(cfg, p, job, w, n, unary), j)
  {
    forall j: nat | j < |p.keys| ensures KeyTracked(cfg, p, Sending(cfg, p, job, w, n, unary), j) {
      assert KeyTracked(cfg, p, job, j);
      SentRound(cfg, p, job, w, n, j);
    }
  }

  lemma SentAllReady(cfg: Config, p: Program, job: Job, w: Worker, n: nat, unary: bool)
    requires Tracked(cfg, p, job) && w in cfg.workers && job.pos[w] + n <= |p.keys|
    ensures var svc := Sending(cfg, p, job, w, n, unary).sys.svc;
            forall k | k in svc.rounds :: FullReady(cfg, svc, k)
  {
    var rs := Batch(p, w, job.pos[w], n);
    var svc := Sending(cfg, p, job, w, n, unary).sys.svc;
    forall k | k in svc.rounds ensures FullReady(cfg, svc, k) {
      assert k !in Keys(rs) ==> FullReady(cfg, job.sys.svc, k);
      SentReady(cfg, job.sys.svc, w, rs, k);
    }
  }

  lemma SentTracked(cfg: Config, p: Program, job: Job, w: Worker, n: nat, unary: bool)
    requires Proper(cfg, p) && Tracked(cfg, p, job) && CanMove(cfg, p, job, Send(w, n, unary))
    ensures Tracked(cfg, p, Sending(cfg, p, job, w, n, unary))
  {
    var after := Sending(cfg, p, job, w, n, unary);
    SentKeys(cfg, p, job, w, n, unary);
    SentAllReady(cfg, p, job, w, n, unary);
    SendingCalls(cfg, p, job, w, n, unary);
    SendingCompleted(cfg, p, job, w, n, unary);
  }

  lemma SendingCalls(cfg: Config, p: Program, job: Job, w: Worker, n: nat, unary: bool)
    requires w in job.pos && job.pos[w] + n <= |p.keys|
    requires forall c {:trigger CallTracked(p, job, c)} | c in job.sys.calls :: CallTracked(p, job, c)
    ensures var after := Sending(cfg, p, job, w, n, unary);
            forall c {:trigger CallTracked(p, after, c)} | c in after.sys.calls :: CallTracked(p, after, c)
  {
    SentCalls(p, job, Sending(cfg, p, job, w, n, unary), w, n, unary);
  }

  lemma SendingCompleted(cfg: Config, p: Program, job: Job, w: Worker, n: nat, unary: bool)
    requires w in job.pos && job.pos[w] + n <= |p.keys|
    requires forall id {:trigger CompletedPast(cfg, p, job, id)} | id in job.sys.svc.completed :: CompletedPast(cfg, p, job, id)
    ensures var after := Sending(cfg, p, job, w, n, unary);
            forall id {:trigger CompletedPast(cfg, p, after, id)} | id in after.sys.svc.completed :: CompletedPast(cfg, p, after, id)
  {
    SentCompleted(cfg, p, job, Sending(cfg, p, job, w, n, unary), w, n);
  }

  lemma SentCalls(p: Program, job: Job, after: Job, w: Worker, n: nat, unary: bool)
    requires w in job.pos && job.pos[w] + n <= |p.keys| && after.pos == job.pos[w := job.pos[w] + n]
    requires var rs := Batch(p, w, job.pos[w], n);
             after.sys.calls == Woken(job.sys.calls)[CallId(w, 0) := Call(unary, Order(rs), Keys(rs), false)]
    requires forall c {:trigger CallTracked(p, job, c)} | c in job.sys.calls :: CallTracked(p, job, c)
    ensures forall c {:trigger CallTracked(p, after, c)} | c in after.sys.calls :: CallTracked(p, after, c)
  {
    BatchKeys(p, w, job.pos[w], n);
    forall c | c in after.sys.calls ensures CallTracked(p, after, c) {
      if c == CallId(w, 0) {
        forall k | k in after.sys.calls[c].remaining
          ensures exists j: nat :: j < |p.keys| && p.keys[j] == k && Past(after, w, j)
        {
          var j: nat :| job.pos[w] <= j < job.pos[w] + n && p.keys[j] == k;
          assert Past(after, w, j);
        }
      } else {
        assert CallTracked(p, job, c);
        forall k | k in after.sys.calls[c].remaining
          ensures exists j: nat :: j < |p.keys| && p.keys[j] == k && Past(after, c.worker, j)
        {
          var j: nat :| j < |p.keys| && p.keys[j] == k && Past(job, c.worker, j);
          assert Past(after, c.worker, j);
        }
      }
    }
  }

  // ---------- delivering ----------

  lemma LeftTracked(cfg: Config, p: Program, job: Job, c: CallId, k: Key)
    requires Core(cfg, job.sys) && Tracked(cfg, p, job)
    requires c in job.sys.calls && k in job.sys.calls[c].remaining && k in job.sys.svc.rounds
    ensures Tracked(cfg, p, Job(Left(job.sys, c, k), job.pos))
  {
    var after := Job(Left(job.sys, c, k), job.pos);
    assert RoundSafe(cfg, job.sys, k) && CallTracked(p, job, c);
    var i: nat :| i < |p.keys| && p.keys[i] == k && Past(job, c.worker, i);
    assert KeyTracked(cfg, p, job, i);
    forall j: nat | j < |p.keys| ensures KeyTracked(cfg, p, after, j) {
      assert KeyTracked(cfg, p, job, j);
    }
    forall k2 | k2 in after.sys.svc.rounds ensures FullReady(cfg, after.sys.svc, k2) {
      assert FullReady(cfg, job.sys.svc, k2);
    }
    forall d | d in after.sys.calls ensures CallTracked(p, after, d) {
      assert CallTracked(p, job, d);
    }
    forall id | id in after.sys.svc.completed ensures CompletedPast(cfg, p, after, id) {
      if id in job.sys.svc.completed {
        assert CompletedPast(cfg, p, job, id);
      }
    }
  }

  lemma {:induction false} LeftAllTracked(cfg: Config, p: Program, job: Job, c: CallId, order: seq<Key>)
    requires Core(cfg, job.sys) && Tracked(cfg, p, job)
    requires c in job.sys.calls && !job.sys.calls[c].asleep
    requires Releasable(job.sys.svc, order)
    requires forall k | k in order :: k in job.sys.calls[c].remaining
    ensures Tracked(cfg, p, Job(LeftAll(job.sys, c, order), job.pos))
    decreases order
  {
    if order != [] {
      var k := order[0];
      assert k in order;
      LeftSafe(cfg, job.sys, c, k);
      LeftTracked(cfg, p, job, c, k);
      assert forall k2 | k2 in order[1..] :: k2 in order && k2 != k;
      var left := Left(job.sys, c, k);
      assert forall k2 | k2 in order[1..] :: k2 in left.calls[c].remaining;
      LeftAllTracked(cfg, p, Job(left, job.pos), c, order[1..]);
    }
  }

  /** Tracked looks only at the service and at what the calls still hold. */
  lemma SameTracked(cfg: Config, p: Program, job: Job, after: Job)
    requires Tracked(cfg, p, job)
    requires after.pos == job.pos && after.sys.svc == job.sys.svc
    requires after.sys.calls.Keys <= job.sys.calls.Keys
    requires forall c | c in after.sys.calls :: after.sys.calls[c].remaining == job.sys.calls[c].remaining
    ensures Tracked(cfg, p, after)
  {
    forall j: nat | j < |p.keys| ensures KeyTracked(cfg, p, after, j) {
      assert KeyTracked(cfg, p, job, j);
    }
    forall k2 | k2 in after.sys.svc.rounds ensures FullReady(cfg, after.sys.svc, k2) {
      assert FullReady(cfg, job.sys.svc, k2);
    }
    forall d | d in after.sys.calls ensures CallTracked(p, after, d) {
      assert CallTracked(p, job, d);
    }
    forall id | id in after.sys.svc.completed ensures CompletedPast(cfg, p, after, id) {
      assert CompletedPast(cfg, p, job, id);
    }
  }

  lemma WaitTracked(cfg: Config, p: Program, job: Job, step: Step)
    requires Good(cfg, p, job) && CanMove(cfg, p, job, Wait(step))
    ensures Tracked(cfg, p, Moved(cfg, p, job, Wait(step)))
  {
    var after := Moved(cfg, p, job, Wait(step));
    match step
    case Return(c) =>
      LeftAllTracked(cfg, p, job, c, job.sys.calls[c].order);
      SameTracked(cfg, p, Job(LeftAll(job.sys, c, job.sys.calls[c].order), job.pos), after);
    case Quit(c, order) =>
      LeftAllTracked(cfg, p, job, c, order);
      SameTracked(cfg, p, Job(LeftAll(job.sys, c, order), job.pos), after);
    case Emit(c, k) =>
      LeftTracked(cfg, p, job, c, k);
      SameTracked(cfg, p, Job(Left(job.sys, c, k), job.pos), after);
    case Sleep(c) =>
      SameTracked(cfg, p, job, after);
  }

  lemma SentGood(cfg: Config, p: Program, job: Job, w: Worker, n: nat, unary: bool)
    requires Proper(cfg, p) && Good(cfg, p, job) && CanMove(cfg, p, job, Send(w, n, unary))
    ensures Good(cfg, p, Sending(cfg, p, job, w, n, unary))
  {
    var rs := Batch(p, w, job.pos[w], n);
    assert rs != [];
    SentTracked(cfg, p, job, w, n, unary);
    SentWhole(cfg, p, job, w, n, unary);
    OpenedSafe(cfg, job.sys, CallId(w, 0), unary, rs);
    NextBusy(cfg, job.sys, Open(CallId(w, 0), unary, rs));
  }

  lemma MovedGood(cfg: Config, p: Program, job: Job, m: Move)
    requires Proper(cfg, p) && Good(cfg, p, job) && CanMove(cfg, p, job, m)
    ensures Good(cfg, p, Moved(cfg, p, job, m))
  {
    match m
    case Send(w, n, unary) =>
      SentWhole(cfg, p, job, w, n, unary);
      SentGood(cfg, p, job, w, n, unary);
    case Wait(step) =>
      WaitTracked(cfg, p, job, step);
      NextSafe(cfg, job.sys, step);
      NextBusy(cfg, job.sys, step);
  }

  // ---------- every run ends ----------

  ghost function CallWeight(calls: map<CallId, Call>): CallId -> int {
    c => if c in calls then |calls[c].remaining| + (if calls[c].asleep then 0 else 1) else 0
  }

  ghost function Unsent(p: Program, pos: map<Worker, nat>): Worker -> int {
    w => if w in pos then |p.keys| - pos[w] else 0
  }

  /** Keys to send, receivers to serve and calls to put to sleep, weighted so that every move lowers it. */
  ghost function Work(cfg: Config, p: Program, pos: map<Worker, nat>, calls: map<CallId, Call>): int {
    (|cfg.workers| + 3) * Sum(pos.Keys, Unsent(p, pos)) + Sum(calls.Keys, CallWeight(calls))
  }

  ghost function JobWork(cfg: Config, p: Program, job: Job): int {
    Work(cfg, p, job.pos, job.sys.calls)
  }

  lemma CallsBound(cfg: Config, calls: map<CallId, Call>)
    requires forall c | c in calls :: c.worker in cfg.workers && c.number == 0
    ensures |calls.Keys| <= |cfg.workers|
  {
    ProjectionBound(calls.Keys, cfg.workers);
  }

  lemma {:induction false} ProjectionBound(cs: set<CallId>, ws: set<Worker>)
    requires forall c | c in cs :: c.worker in ws && c.number == 0
    ensures |cs| <= |ws|
    decreases |cs|
  {
    if cs != {} {
      var c :| c in cs;
      ProjectionBound(cs - {c}, ws - {c.worker});
    }
  }

  lemma WokenWeight(calls: map<CallId, Call>)
    ensures Sum(Woken(calls).Keys, CallWeight(Woken(calls))) <= Sum(calls.Keys, CallWeight(calls)) + |calls.Keys|
  {
    assert Woken(calls).Keys == calls.Keys;
    var one: CallId -> int := c => 1;
    var more: CallId -> int := c => CallWeight(calls)(c) + 1;
    SumConstant(calls.Keys, one, 1);
    SumPlus(calls.Keys, CallWeight(calls), one, more);
    SumBetween(calls.Keys, CallWeight(Woken(calls)), more);
  }

  lemma AddedWeight(calls: map<CallId, Call>, c: CallId, call: Call)
    requires c !in calls && !call.asleep
    ensures Sum(calls[c := call].Keys, CallWeight(calls[c := call]))
         == Sum(calls.Keys, CallWeight(calls)) + |call.remaining| + 1
  {
    var after := calls[c := call];
    SumSplit(after.Keys, CallWeight(after), c);
    assert after.Keys - {c} == calls.Keys;
    SumSame(calls.Keys, CallWeight(after), CallWeight(calls));
  }

  lemma BatchSize(p: Program, w: Worker, from: nat, n: nat)
    requires from + n <= |p.keys|
    ensures |Keys(Batch(p, w, from, n))| <= n
  {
    var rs := Batch(p, w, from, n);
    KeysAtMost(rs);
  }

  lemma {:induction false} KeysAtMost(rs: seq<Request>)
    ensures |Keys(rs)| <= |rs|
  {
    if rs != [] {
      var last := |rs| - 1;
      KeysAtMost(rs[..last]);
      assert rs[..last+1] == rs;
      KeysOfPrefix(rs, last);
    }
  }

  lemma SentCallWeight(cfg: Config, p: Program, job: Job, w: Worker, n: nat, unary: bool)
    requires Good(cfg, p, job) && CanMove(cfg, p, job, Send(w, n, unary))
    ensures var rs := Batch(p, w, job.pos[w], n);
            var calls := Entered(job.sys.calls, CallId(w, 0), unary, rs);
            Sum(calls.Keys, CallWeight(calls))
              <= Sum(job.sys.calls.Keys, CallWeight(job.sys.calls)) + |cfg.workers| + n + 1
  {
    var rs := Batch(p, w, job.pos[w], n);
    forall c | c in job.sys.calls ensures c.worker in cfg.workers && c.number == 0 {
      assert CallSafe(cfg, job.sys, c) && CallTracked(p, job, c);
    }
    CallsBound(cfg, job.sys.calls);
    WokenWeight(job.sys.calls);
    AddedWeight(Woken(job.sys.calls), CallId(w, 0), Call(unary, Order(rs), Keys(rs), false));
    BatchSize(p, w, job.pos[w], n);
  }

  lemma SentUnsent(p: Program, pos: map<Worker, nat>, w: Worker, n: nat)
    requires w in pos
    ensures var later := pos[w := pos[w] + n];
            Sum(pos.Keys, Unsent(p, pos)) == Sum(later.Keys, Unsent(p, later)) + n
  {
    var later := pos[w := pos[w] + n];
    SumSplit(pos.Keys, Unsent(p, pos), w);
    SumSplit(pos.Keys, Unsent(p, later), w);
    SumSame(pos.Keys - {w}, Unsent(p, pos), Unsent(p, later));
    assert later.Keys == pos.Keys;
  }

  lemma SentWork(cfg: Config, p: Program, pos: map<Worker, nat>, w: Worker, n: nat,
                 calls: map<CallId, Call>, later: map<CallId, Call>)
    requires w in pos && 0 < n && pos[w] + n <= |p.keys|
    requires Sum(later.Keys, CallWeight(later)) <= Sum(calls.Keys, CallWeight(calls)) + |cfg.workers| + n + 1
    ensures Work(cfg, p, Advanced(pos, w, n), later) < Work(cfg, p, pos, calls)
  {
    var pos2 := pos[w := pos[w] + n];
    SentUnsent(p, pos, w, n);
    SendPays(|cfg.workers|, n, Sum(pos2.Keys, Unsent(p, pos2)), Sum(pos.Keys, Unsent(p, pos)),
             Sum(later.Keys, CallWeight(later)), Sum(calls.Keys, CallWeight(calls)));
  }

  lemma SendPays(workers: nat, n: nat, later: int, before: int, callsLater: int, callsBefore: int)
    requires n > 0 && before == later + n
    requires callsLater <= callsBefore + workers + n + 1
    ensures (workers + 3) * later + callsLater < (workers + 3) * before + callsBefore
  {
    assert (workers + 3) * before == (workers + 3) * later + (workers + 3) * n;
    assert (workers + 3) * n == (workers + 3) + (workers + 3) * (n - 1);
    assert (workers + 3) * (n - 1) >= n - 1;
  }

  lemma ChangedWeight(calls: map<CallId, Call>, c: CallId, call: Call)
    requires c in calls
    ensures Sum(calls[c := call].Keys, CallWeight(calls[c := call]))
         == Sum(calls.Keys, CallWeight(calls)) - CallWeight(calls)(c) + CallWeight(calls[c := call])(c)
  {
    var after := calls[c := call];
    assert after.Keys == calls.Keys;
    SumSplit(calls.Keys, CallWeight(after), c);
    SumSplit(calls.Keys, CallWeight(calls), c);
    SumSame(calls.Keys - {c}, CallWeight(after), CallWeight(calls));
  }

  lemma RemovedWeight(calls: map<CallId, Call>, c: CallId)
    requires c in calls
    ensures Sum((calls - {c}).Keys, CallWeight(calls - {c})) == Sum(calls.Keys, CallWeight(calls)) - CallWeight(calls)(c)
  {
    assert (calls - {c}).Keys == calls.Keys - {c};
    SumSplit(calls.Keys, CallWeight(calls), c);
    SumSame(calls.Keys - {c}, CallWeight(calls - {c}), CallWeight(calls));
  }

  lemma WaitWeight(cfg: Config, sys: Sys, step: Step)
    requires UnaryIntact(sys) && Enabled(cfg, sys, step)
    requires step.Return? || step.Emit? || step.Quit? || step.Sleep?
    ensures var after := Next(cfg, sys, step).calls;
            Sum(after.Keys, CallWeight(after)) < Sum(sys.calls.Keys, CallWeight(sys.calls))
  {
    var calls := sys.calls;
    match step
    case Return(c) => LeaverWeight(sys, c, calls[c].order);
    case Quit(c, order) => LeaverWeight(sys, c, order);
    case Emit(c, k) =>
      var left := calls[c := calls[c].(remaining := calls[c].remaining - {k})];
      ChangedWeight(calls, c, left[c]);
      RemovedWeight(left, c);
    case Sleep(c) =>
      ChangedWeight(calls, c, calls[c].(asleep := true));
  }

  lemma LeaverWeight(sys: Sys, c: CallId, order: seq<Key>)
    requires c in sys.calls && !sys.calls[c].asleep && Releasable(sys.svc, order)
    ensures Gone(LeftAll(sys, c, order), c).calls == sys.calls - {c}
    ensures Sum((sys.calls - {c}).Keys, CallWeight(sys.calls - {c})) < Sum(sys.calls.Keys, CallWeight(sys.calls))
  {
    LeftAllIs(sys, c, order);
    SameGone(sys.calls, LeftAll(sys, c, order).calls, c);
    RemovedWeight(sys.calls, c);
  }

  lemma SameGone(calls: map<CallId, Call>, after: map<CallId, Call>, c: CallId)
    requires after.Keys == calls.Keys && forall d | d in calls && d != c :: after[d] == calls[d]
    ensures after - {c} == calls - {c}
  {
  }

  ghost predicate Moves(cfg: Config, p: Program, job: Job, ms: seq<Move>)
    decreases ms
  {
    ms == [] || (CanMove(cfg, p, job, ms[0]) && Moves(cfg, p, Moved(cfg, p, job, ms[0]), ms[1..]))
  }

  ghost function MovedAll(cfg: Config, p: Program, job: Job, ms: seq<Move>): Job
    requires Moves(cfg, p, job, ms)
    decreases ms
  {
    if ms == [] then job else MovedAll(cfg, p, Moved(cfg, p, job, ms[0]), ms[1..])
  }

  lemma SentLess(cfg: Config, p: Program, job: Job, w: Worker, n: nat, unary: bool)
    requires Good(cfg, p, job) && CanMove(cfg, p, job, Send(w, n, unary))
    ensures Work(cfg, p, Advanced(job.pos, w, n), Entered(job.sys.calls, CallId(w, 0), unary, Batch(p, w, job.pos[w], n)))
          < JobWork(cfg, p, job)
  {
    var rs := Batch(p, w, job.pos[w], n);
    SentCallWeight(cfg, p, job, w, n, unary);
    SentWork(cfg, p, job.pos, w, n, job.sys.calls, Entered(job.sys.calls, CallId(w, 0), unary, rs));
  }

  lemma MovedWork(cfg: Config, p: Program, job: Job, m: Move)
    requires Proper(cfg, p) && Good(cfg, p, job) && CanMove(cfg, p, job, m)
    ensures JobWork(cfg, p, Moved(cfg, p, job, m)) < JobWork(cfg, p, job)
  {
    match m
    case Send(w, n, unary) =>
      SentWhole(cfg, p, job, w, n, unary);
      SentLess(cfg, p, job, w, n, unary);
    case Wait(step) => WaitWeight(cfg, job.sys, step);
  }

  lemma {:induction false} MovesGood(cfg: Config, p: Program, job: Job, ms: seq<Move>)
    requires Proper(cfg, p) && Good(cfg, p, job) && Moves(cfg, p, job, ms)
    ensures Good(cfg, p, MovedAll(cfg, p, job, ms))
    ensures |ms| + JobWork(cfg, p, MovedAll(cfg, p, job, ms)) <= JobWork(cfg, p, job)
    decreases ms
  {
    if ms != [] {
      MovedGood(cfg, p, job, ms[0]);
      MovedWork(cfg, p, job, ms[0]);
      MovesGood(cfg, p, Moved(cfg, p, job, ms[0]), ms[1..]);
    }
  }

  lemma StartGood(cfg: Config, p: Program)
    requires Proper(cfg, p)
    ensures Good(cfg, p, Start(cfg))
    ensures JobWork(cfg, p, Start(cfg)) == (|cfg.workers| + 3) * (|p.keys| * |cfg.workers|)
  {
    SumConstant(Start(cfg).pos.Keys, Unsent(p, Start(cfg).pos), |p.keys|);
    assert Start(cfg).pos.Keys == cfg.workers;
  }

  lemma WorkNonNegative(cfg: Config, p: Program, job: Job)
    requires forall w | w in job.pos :: job.pos[w] <= |p.keys|
    ensures JobWork(cfg, p, job) >= 0
  {
    SumNonNegative(job.pos.Keys, Unsent(p, job.pos));
    SumNonNegative(job.sys.calls.Keys, CallWeight(job.sys.calls));
    ProductNonNegative(|cfg.workers| + 3, Sum(job.pos.Keys, Unsent(p, job.pos)));
  }

  lemma ProductNonNegative(a: int, b: int)
    requires a >= 0 && b >= 0
    ensures a * b >= 0
  {
  }

  /** Progress of the barrier. For any number of Workers, any cutting into batches, unary or streaming,
      whatever averaging answers: a run that has not sent and answered everything can always go on by a
      delivery or a new batch, and no run is longer than a bound known in advance. Hence every run ends,
      with every batch of every Worker sent and answered. */
  lemma EveryRunEnds(cfg: Config, p: Program, ms: seq<Move>)
    requires Proper(cfg, p) && Moves(cfg, p, Start(cfg), ms)
    ensures |ms| <= (|cfg.workers| + 3) * (|p.keys| * |cfg.workers|)
    ensures var job := MovedAll(cfg, p, Start(cfg), ms);
            !Finished(cfg, p, job) ==> exists m :: CanMove(cfg, p, job, m) && (m.Wait? ==> !m.step.Sleep?)
  {
    StartGood(cfg, p);
    MovesGood(cfg, p, Start(cfg), ms);
    var job := MovedAll(cfg, p, Start(cfg), ms);
    WorkNonNegative(cfg, p, job);
    if !Finished(cfg, p, job) {
      var m := NeverBlocked(cfg, p, job);
    }
  }
}
