/** Runs of the keyed barrier: any number of calls, interleaved one critical section at a time.
    `cond.Wait` is the step Sleep; a broadcast wakes every sleeping call. */
module KeyedRuns {
  import opened Wrappers
  import opened Gradients
  import opened KeyedRounds

  datatype CallId = CallId(worker: Worker, number: nat)

  /** A call that has registered and not returned. `remaining` are the rounds it still has to leave. */
  datatype Call = Call(unary: bool, order: seq<Key>, remaining: set<Key>, asleep: bool)

  datatype Averaging = Averaging(key: Key, submissions: map<Worker, Group>)

  datatype Delivery = Delivery(call: CallId, key: Key, response: Group)

  /** The service, its callers, and the history since the maps were last reset:
      `leaked` counts receivers registered by batches that were then rejected,
      `sent` the keys each Worker got accepted, `averagings` and `deliveries` what was computed and handed out. */
  datatype Sys = Sys(
    svc: Service,
    calls: map<CallId, Call>,
    leaked: map<Key, nat>,
    sent: map<Worker, set<Key>>,
    averagings: seq<Averaging>,
    deliveries: seq<Delivery>)

  datatype Step =
    | Open(c: CallId, unary: bool, rs: seq<Request>)
    | Return(c: CallId)
    | Emit(c: CallId, k: Key)
    | Quit(c: CallId, order: seq<Key>)
    | Sleep(c: CallId)
    | Abort(reason: string)

  const INIT: Sys := Sys(Service(map[], map[]), map[], map[], map[], [], [])

  ghost function Holders(calls: map<CallId, Call>, k: Key): set<CallId> {
    set c | c in calls && k in calls[c].remaining
  }

  function Leaked(sys: Sys, k: Key): nat {
    if k in sys.leaked then sys.leaked[k] else 0
  }

  function Sent(sys: Sys, w: Worker): set<Key> {
    if w in sys.sent then sys.sent[w] else {}
  }

  predicate ReadyAt(s: Service, k: Key) {
    k in s.rounds && s.rounds[k].Ready()
  }

  /** The loop guard of a waiting call is false: the unary call needs every round, the streaming one any. */
  predicate CanProceed(s: Service, call: Call) {
    if call.unary then forall k | k in call.remaining :: ReadyAt(s, k)
    else exists k | k in call.remaining :: ReadyAt(s, k)
  }

  predicate Enabled(cfg: Config, sys: Sys, step: Step) {
    match step
    case Open(c, unary, rs) => c.worker in cfg.workers && c !in sys.calls && rs != []
    case Return(c) =>
      && c in sys.calls && sys.calls[c].unary && !sys.calls[c].asleep
      && CanProceed(sys.svc, sys.calls[c])
      && Permutes(sys.calls[c].order, sys.calls[c].remaining)
      && sys.calls[c].remaining <= sys.svc.rounds.Keys
    case Emit(c, k) =>
      && c in sys.calls && !sys.calls[c].unary && !sys.calls[c].asleep
      && k in sys.calls[c].remaining && k in sys.svc.rounds
      && sys.svc.rounds[k].err.None? && sys.svc.rounds[k].response.Some?
    case Quit(c, order) =>
      && c in sys.calls && !sys.calls[c].unary && !sys.calls[c].asleep
      && Permutes(order, sys.calls[c].remaining)
      && sys.calls[c].remaining <= sys.svc.rounds.Keys
    case Sleep(c) => c in sys.calls && !sys.calls[c].asleep && !CanProceed(sys.svc, sys.calls[c])
    case Abort(_) => true
  }

  predicate Permutes(order: seq<Key>, ks: set<Key>) {
    && (forall i, j | 0 <= i < j < |order| :: order[i] != order[j])
    && (forall k | k in order :: k in ks)
    && (forall k | k in ks :: k in order)
  }

  function Woken(calls: map<CallId, Call>): map<CallId, Call> {
    map c | c in calls :: calls[c].(asleep := false)
  }

  function NewAveragings(cfg: Config, s: Service, rs: seq<Request>): seq<Averaging> {
    if rs == [] then []
    else
      (if rs[0].key in s.rounds && |s.rounds[rs[0].key].submissions| == |cfg.workers| && !s.rounds[rs[0].key].Ready()
       then [Averaging(rs[0].key, s.rounds[rs[0].key].submissions)] else [])
      + NewAveragings(cfg, s, rs[1..])
  }

  function WithLeaks(leaked: map<Key, nat>, ks: set<Key>): map<Key, nat> {
    map k | k in leaked.Keys + ks ::
      (if k in leaked then leaked[k] else 0) + (if k in ks then 1 else 0)
  }

  function Order(rs: seq<Request>): seq<Key> {
    seq(|rs|, i requires 0 <= i < |rs| => rs[i].key)
  }

  /** Registration broadcasts, then the new call starts to wait for its rounds. */
  function Entered(calls: map<CallId, Call>, c: CallId, unary: bool, rs: seq<Request>): map<CallId, Call> {
    Woken(calls)[c := Call(unary, Order(rs), Keys(rs), false)]
  }

  /** The whole batch was accepted: full rounds are averaged, everyone is woken and the call starts to wait. */
  function Admitted(cfg: Config, sys: Sys, c: CallId, unary: bool, rs: seq<Request>): Sys {
    var inserted := Inserted(sys.svc, c.worker, rs);
    sys.(svc := Settled(cfg, inserted, Keys(rs)),
         calls := Entered(sys.calls, c, unary, rs),
         sent := sys.sent[c.worker := Sent(sys, c.worker) + Keys(rs)],
         averagings := sys.averagings + NewAveragings(cfg, inserted, rs))
  }

  /** Only `rs` was accepted before a rejected request: it stays registered and the call returns an error. */
  function TurnedAway(sys: Sys, w: Worker, rs: seq<Request>): Sys {
    sys.(svc := Inserted(sys.svc, w, rs),
         leaked := WithLeaks(sys.leaked, Keys(rs)),
         sent := sys.sent[w := Sent(sys, w) + Keys(rs)])
  }

  function Opened(cfg: Config, sys: Sys, c: CallId, unary: bool, rs: seq<Request>): Sys {
    var n := Accepted(cfg, sys.svc, c.worker, rs);
    if n == |rs| then Admitted(cfg, sys, c, unary, rs) else TurnedAway(sys, c.worker, rs[..n])
  }

  lemma OpenedService(cfg: Config, sys: Sys, c: CallId, unary: bool, rs: seq<Request>)
    ensures Opened(cfg, sys, c, unary, rs).svc == Registered(cfg, sys.svc, c.worker, rs)
  {
    assert rs[..|rs|] == rs;
  }

  lemma OpenedWhole(cfg: Config, sys: Sys, c: CallId, unary: bool, rs: seq<Request>)
    requires Accepted(cfg, sys.svc, c.worker, rs) == |rs|
    ensures Opened(cfg, sys, c, unary, rs) == Admitted(cfg, sys, c, unary, rs)
  {
  }

  function Left(sys: Sys, c: CallId, k: Key): Sys
    requires c in sys.calls && k in sys.svc.rounds
  {
    sys.(svc := Released(sys.svc, k),
         calls := sys.calls[c := sys.calls[c].(remaining := sys.calls[c].remaining - {k})])
  }

  function LeftAll(sys: Sys, c: CallId, order: seq<Key>): Sys
    requires c in sys.calls && Releasable(sys.svc, order)
    decreases order
  {
    if order == [] then sys
    else
      assert forall k | k in order[1..] :: k in order && k != order[0];
      LeftAll(Left(sys, c, order[0]), c, order[1..])
  }

  function Gone(sys: Sys, c: CallId): Sys {
    sys.(calls := sys.calls - {c})
  }

  /** The unary call returns the responses in registration order, or the first error and no response. */
  function Answers(s: Service, c: CallId, order: seq<Key>): seq<Delivery>
    requires forall k | k in order :: k in s.rounds && s.rounds[k].Ready()
  {
    if FirstError(s, order).Some? then []
    else
      seq(|order|, i requires 0 <= i < |order| =>
        assert order[i] in order && s.rounds[order[i]].err.None? && s.rounds[order[i]].Ready();
        Delivery(c, order[i], s.rounds[order[i]].response.value))
  }

  function Next(cfg: Config, sys: Sys, step: Step): Sys
    requires Enabled(cfg, sys, step)
  {
    match step
    case Open(c, unary, rs) => Opened(cfg, sys, c, unary, rs)
    case Return(c) =>
      var order := sys.calls[c].order;
      assert forall k | k in order :: k in sys.calls[c].remaining && ReadyAt(sys.svc, k);
      Gone(LeftAll(sys, c, order), c).(deliveries := sys.deliveries + Answers(sys.svc, c, order))
    case Emit(c, k) =>
      var left := Left(sys, c, k).(deliveries := sys.deliveries + [Delivery(c, k, sys.svc.rounds[k].response.value)]);
      if left.calls[c].remaining == {} then Gone(left, c) else left
    case Quit(c, order) => Gone(LeftAll(sys, c, order), c)
    case Sleep(c) => sys.(calls := sys.calls[c := sys.calls[c].(asleep := true)])
    case Abort(reason) =>
      if HasReceivers(sys.svc) then sys.(svc := Aborted(sys.svc, reason), calls := Woken(sys.calls))
      else sys.(svc := Aborted(sys.svc, reason), leaked := map[], sent := map[], averagings := [], deliveries := [])
  }

  ghost predicate ValidRun(cfg: Config, sys: Sys, steps: seq<Step>)
    decreases steps
  {
    steps == [] || (Enabled(cfg, sys, steps[0]) && ValidRun(cfg, Next(cfg, sys, steps[0]), steps[1..]))
  }

  ghost function After(cfg: Config, sys: Sys, steps: seq<Step>): Sys
    requires ValidRun(cfg, sys, steps)
    decreases steps
  {
    if steps == [] then sys else After(cfg, Next(cfg, sys, steps[0]), steps[1..])
  }

  // ---------- what every interleaving keeps ----------

  /** A call's rounds stay in the map with its submission until the call has left them. */
  ghost predicate CallSafe(cfg: Config, sys: Sys, c: CallId)
    requires c in sys.calls
  {
    && c.worker in cfg.workers
    && (forall k | k in sys.calls[c].remaining :: k in sys.svc.rounds && c.worker in sys.svc.rounds[k].submissions)
    && (sys.calls[c].asleep ==> sys.calls[c].remaining != {} && !CanProceed(sys.svc, sys.calls[c]))
  }

  /** A round counts its live receivers exactly, apart from those of rejected batches. */
  ghost predicate RoundCounts(sys: Sys, k: Key)
    requires k in sys.svc.rounds
  {
    sys.svc.rounds[k].waiting == |Holders(sys.calls, k)| + Leaked(sys, k)
  }

  /** Only assigned Workers submit, and a response is the average of one submission from each of them. */
  ghost predicate RoundAnswers(cfg: Config, sys: Sys, k: Key)
    requires k in sys.svc.rounds
  {
    var r := sys.svc.rounds[k];
    && k.round > 0
    && r.submissions.Keys <= cfg.workers
    && (r.response.Some? ==>
          && r.submissions.Keys == cfg.workers
          && cfg.average(r.submissions) == Average(r.response.value)
          && Averaging(k, r.submissions) in sys.averagings)
  }

  ghost predicate RoundSafe(cfg: Config, sys: Sys, k: Key)
    requires k in sys.svc.rounds
  {
    RoundCounts(sys, k) && RoundAnswers(cfg, sys, k)
  }

  ghost predicate AveragingSafe(cfg: Config, a: Averaging) {
    a.submissions.Keys == cfg.workers
  }

  /** Whatever a caller received is the average computed at one averaging of that key. */
  ghost predicate DeliverySafe(cfg: Config, sys: Sys, d: Delivery) {
    exists a | a in sys.averagings :: a.key == d.key && cfg.average(a.submissions) == Average(d.response)
  }

  /** A unary call leaves none of its rounds before it leaves them all. */
  ghost predicate UnaryIntact(sys: Sys) {
    forall c | c in sys.calls && sys.calls[c].unary :: Permutes(sys.calls[c].order, sys.calls[c].remaining)
  }

  ghost predicate Core(cfg: Config, sys: Sys) {
    && (forall c {:trigger CallSafe(cfg, sys, c)} | c in sys.calls :: CallSafe(cfg, sys, c))
    && (forall k {:trigger RoundSafe(cfg, sys, k)} | k in sys.svc.rounds :: RoundSafe(cfg, sys, k))
    && (forall k | k in sys.leaked && k !in sys.svc.rounds :: sys.leaked[k] == 0)
    && (forall a {:trigger AveragingSafe(cfg, a)} | a in sys.averagings :: AveragingSafe(cfg, a))
    && (forall d {:trigger DeliverySafe(cfg, sys, d)} | d in sys.deliveries :: DeliverySafe(cfg, sys, d))
  }

  ghost predicate Safe(cfg: Config, sys: Sys) {
    Core(cfg, sys) && UnaryIntact(sys)
  }

  // ---------- leaving a round ----------

  lemma LeftHolders(sys: Sys, c: CallId, k: Key, k2: Key)
    requires c in sys.calls && k in sys.calls[c].remaining && k in sys.svc.rounds
    ensures k2 != k ==> Holders(Left(sys, c, k).calls, k2) == Holders(sys.calls, k2)
    ensures Holders(Left(sys, c, k).calls, k) == Holders(sys.calls, k) - {c}
    ensures |Holders(Left(sys, c, k).calls, k)| == |Holders(sys.calls, k)| - 1
  {
    assert c in Holders(sys.calls, k);
  }

  lemma LeftSafe(cfg: Config, sys: Sys, c: CallId, k: Key)
    requires Core(cfg, sys)
    requires c in sys.calls && k in sys.calls[c].remaining && k in sys.svc.rounds
    requires !sys.calls[c].asleep
    ensures Core(cfg, Left(sys, c, k))
  {
    var after := Left(sys, c, k);
    assert RoundSafe(cfg, sys, k);
    LeftHolders(sys, c, k, k);
    forall k2 | k2 in after.svc.rounds ensures RoundSafe(cfg, after, k2) {
      assert RoundSafe(cfg, sys, k2);
      LeftHolders(sys, c, k, k2);
    }
    forall d | d in after.calls ensures CallSafe(cfg, after, d) {
      assert CallSafe(cfg, sys, d);
      forall k2 | k2 in after.calls[d].remaining
        ensures k2 in after.svc.rounds && d.worker in after.svc.rounds[k2].submissions
        ensures ReadyAt(after.svc, k2) == ReadyAt(sys.svc, k2)
      {
        if k2 == k {
          assert d in Holders(after.calls, k);
        }
      }
    }
    forall d | d in after.deliveries ensures DeliverySafe(cfg, after, d) {
      assert DeliverySafe(cfg, sys, d);
    }
  }

  /** Leaving several rounds is what the service does when it releases them all under one lock. */
  lemma {:induction false} LeftAllIs(sys: Sys, c: CallId, order: seq<Key>)
    requires c in sys.calls && Releasable(sys.svc, order)
    ensures var after := LeftAll(sys, c, order);
            && after.svc == ReleasedAll(sys.svc, order)
            && after.calls.Keys == sys.calls.Keys
            && (forall d | d in sys.calls && d != c :: after.calls[d] == sys.calls[d])
            && after.calls[c].(remaining := {}) == sys.calls[c].(remaining := {})
            && (forall k :: k in after.calls[c].remaining <==> k in sys.calls[c].remaining && k !in order)
            && after.leaked == sys.leaked && after.sent == sys.sent
            && after.averagings == sys.averagings && after.deliveries == sys.deliveries
    decreases order
  {
    if order != [] {
      assert forall k | k in order[1..] :: k in order && k != order[0];
      LeftAllIs(Left(sys, c, order[0]), c, order[1..]);
      assert forall k :: k in order <==> k == order[0] || k in order[1..];
    }
  }

  lemma {:induction false} LeftAllSafe(cfg: Config, sys: Sys, c: CallId, order: seq<Key>)
    requires Core(cfg, sys)
    requires c in sys.calls && !sys.calls[c].asleep
    requires Releasable(sys.svc, order)
    requires forall k | k in order :: k in sys.calls[c].remaining
    ensures Core(cfg, LeftAll(sys, c, order))
    decreases order
  {
    if order != [] {
      var k := order[0];
      assert k in order;
      LeftSafe(cfg, sys, c, k);
      assert forall k2 | k2 in order[1..] :: k2 in order && k2 != k;
      var left := Left(sys, c, k);
      assert forall k2 | k2 in order[1..] :: k2 in left.calls[c].remaining;
      LeftAllSafe(cfg, left, c, order[1..]);
    }
  }

  /** A call that has left all its rounds holds nothing, so removing it changes no count. */
  lemma GoneSafe(cfg: Config, sys: Sys, c: CallId)
    requires Core(cfg, sys)
    requires c in sys.calls && sys.calls[c].remaining == {}
    ensures Core(cfg, Gone(sys, c))
  {
    var after := Gone(sys, c);
    forall k | k in after.svc.rounds ensures RoundSafe(cfg, after, k) {
      assert RoundSafe(cfg, sys, k);
      assert Holders(after.calls, k) == Holders(sys.calls, k);
    }
    forall d | d in after.calls ensures CallSafe(cfg, after, d) {
      assert CallSafe(cfg, sys, d);
    }
    forall d | d in after.deliveries ensures DeliverySafe(cfg, after, d) {
      assert DeliverySafe(cfg, sys, d);
    }
  }

  lemma AllGoneSafe(cfg: Config, sys: Sys, c: CallId, order: seq<Key>)
    requires Safe(cfg, sys)
    requires c in sys.calls && !sys.calls[c].asleep
    requires Permutes(order, sys.calls[c].remaining)
    requires sys.calls[c].remaining <= sys.svc.rounds.Keys
    ensures Safe(cfg, Gone(LeftAll(sys, c, order), c))
  {
    LeftAllSafe(cfg, sys, c, order);
    LeftAllIs(sys, c, order);
    GoneSafe(cfg, LeftAll(sys, c, order), c);
  }

  // ---------- opening ----------

  lemma {:induction false} NewAveragingsAre(cfg: Config, s: Service, rs: seq<Request>)
    ensures forall a :: a in NewAveragings(cfg, s, rs) <==>
              && a.key in Keys(rs) && a.key in s.rounds
              && a.submissions == s.rounds[a.key].submissions
              && |a.submissions| == |cfg.workers| && !s.rounds[a.key].Ready()
  {
    if rs != [] {
      NewAveragingsAre(cfg, s, rs[1..]);
      assert Keys(rs) == {rs[0].key} + Keys(rs[1..]) by {
        assert rs == [rs[0]] + rs[1..];
        forall k | k in Keys(rs[1..]) ensures k in Keys(rs) {
          var r :| r in rs[1..] && r.key == k;
          assert r in rs;
        }
      }
    }
  }

  lemma FullSet<T>(small: set<T>, big: set<T>)
    requires small <= big && |small| == |big|
    ensures small == big
  {
    if small != big {
      var x :| x in big && x !in small;
      assert small <= big - {x};
      SubsetSize(small, big - {x});
    }
  }

  lemma SubsetSize<T>(small: set<T>, big: set<T>)
    requires small <= big
    ensures |small| <= |big|
  {
    assert big == small + (big - small);
  }

  lemma NotHeld(cfg: Config, sys: Sys, k: Key)
    requires Core(cfg, sys) && k !in sys.svc.rounds
    ensures Holders(sys.calls, k) == {}
    ensures Leaked(sys, k) == 0
  {
    forall d | d in sys.calls ensures k !in sys.calls[d].remaining {
      assert CallSafe(cfg, sys, d);
    }
  }

  /** What one round looks like after `rs` has been inserted, before averaging. */
  lemma InsertedRound(cfg: Config, sys: Sys, w: Worker, rs: seq<Request>, k: Key)
    requires Core(cfg, sys) && w in cfg.workers
    requires AcceptedUpTo(cfg, sys.svc, w, rs, |rs|)
    requires k in Inserted(sys.svc, w, rs).rounds
    ensures var r := Inserted(sys.svc, w, rs).rounds[k];
            && k.round > 0
            && r.submissions.Keys <= cfg.workers
            && r.waiting == |Holders(sys.calls, k)| + Leaked(sys, k) + (if k in Keys(rs) then 1 else 0)
            && (k in Keys(rs) ==> r.response.None? && w in r.submissions)
            && (k !in Keys(rs) ==> k in sys.svc.rounds && r == sys.svc.rounds[k])
  {
    if k in sys.svc.rounds {
      assert RoundSafe(cfg, sys, k);
    } else {
      NotHeld(cfg, sys, k);
    }
    if k in Keys(rs) {
      assert rs[..|rs|] == rs;
      AcceptedKey(cfg, sys.svc, w, rs, |rs|, k);
    }
  }

  lemma TurnedAwaySafe(cfg: Config, sys: Sys, w: Worker, rs: seq<Request>)
    requires Safe(cfg, sys) && w in cfg.workers
    requires AcceptedUpTo(cfg, sys.svc, w, rs, |rs|)
    ensures Safe(cfg, TurnedAway(sys, w, rs))
  {
    var after := TurnedAway(sys, w, rs);
    forall k | k in after.svc.rounds ensures RoundSafe(cfg, after, k) {
      InsertedRound(cfg, sys, w, rs, k);
      if k in sys.svc.rounds {
        assert RoundSafe(cfg, sys, k);
      }
    }
    forall d | d in after.calls ensures CallSafe(cfg, after, d) {
      assert CallSafe(cfg, sys, d);
      forall k | k in sys.calls[d].remaining ensures ReadyAt(after.svc, k) == ReadyAt(sys.svc, k) {}
    }
    forall d | d in after.deliveries ensures DeliverySafe(cfg, after, d) {
      assert DeliverySafe(cfg, sys, d);
    }
  }

  lemma AddedHolder(calls: map<CallId, Call>, c: CallId, call: Call, k: Key)
    requires c !in calls
    ensures |Holders(Woken(calls)[c := call], k)| == |Holders(calls, k)| + (if k in call.remaining then 1 else 0)
  {
    if k in call.remaining {
      assert Holders(Woken(calls)[c := call], k) == Holders(calls, k) + {c};
    } else {
      assert Holders(Woken(calls)[c := call], k) == Holders(calls, k);
    }
  }

  lemma FullRound(cfg: Config, r: Round)
    requires r.submissions.Keys <= cfg.workers && |r.submissions| == |cfg.workers|
    ensures r.submissions.Keys == cfg.workers
  {
    assert |r.submissions.Keys| == |r.submissions|;
    FullSet(r.submissions.Keys, cfg.workers);
  }

  lemma FullRoundSettles(cfg: Config, r: Round)
    ensures r.submissions.Keys == cfg.workers ==> Settle(cfg, r).Ready()
    ensures Settle(cfg, r).submissions == r.submissions
  {
    assert |r.submissions.Keys| == |r.submissions|;
  }

  lemma AdmittedCounts(cfg: Config, sys: Sys, c: CallId, unary: bool, rs: seq<Request>, k: Key)
    requires c !in sys.calls
    requires k in Inserted(sys.svc, c.worker, rs).rounds
    requires Inserted(sys.svc, c.worker, rs).rounds[k].waiting
          == |Holders(sys.calls, k)| + Leaked(sys, k) + (if k in Keys(rs) then 1 else 0)
    ensures RoundCounts(Admitted(cfg, sys, c, unary, rs), k)
  {
    AddedHolder(sys.calls, c, Call(unary, Order(rs), Keys(rs), false), k);
  }

  lemma AdmittedAnswers(cfg: Config, sys: Sys, c: CallId, unary: bool, rs: seq<Request>, k: Key)
    requires k in Inserted(sys.svc, c.worker, rs).rounds
    requires k.round > 0
    requires Inserted(sys.svc, c.worker, rs).rounds[k].submissions.Keys <= cfg.workers
    requires k in Keys(rs) ==> Inserted(sys.svc, c.worker, rs).rounds[k].response.None?
    requires k !in Keys(rs) ==> RoundAnswers(cfg, sys, k)
    ensures RoundAnswers(cfg, Admitted(cfg, sys, c, unary, rs), k)
  {
    var inserted := Inserted(sys.svc, c.worker, rs);
    var r := inserted.rounds[k];
    if k in Keys(rs) && |r.submissions| == |cfg.workers| && !r.Ready() {
      FullRound(cfg, r);
      NewAveragingsAre(cfg, inserted, rs);
      assert Averaging(k, r.submissions) in NewAveragings(cfg, inserted, rs);
    }
  }

  lemma OrderPermutes(rs: seq<Request>)
    requires DistinctKeys(rs)
    ensures Permutes(Order(rs), Keys(rs))
  {
    forall k | k in Keys(rs) ensures k in Order(rs) {
      var r :| r in rs && r.key == k;
      var i :| 0 <= i < |rs| && rs[i] == r;
      assert Order(rs)[i] == k;
    }
    forall k | k in Order(rs) ensures k in Keys(rs) {
      var i :| 0 <= i < |rs| && Order(rs)[i] == k;
      assert rs[i] in rs;
    }
  }

  lemma AdmittedAveragings(cfg: Config, sys: Sys, c: CallId, unary: bool, rs: seq<Request>)
    requires Safe(cfg, sys) && c.worker in cfg.workers
    requires AcceptedUpTo(cfg, sys.svc, c.worker, rs, |rs|)
    ensures forall a | a in Admitted(cfg, sys, c, unary, rs).averagings :: AveragingSafe(cfg, a)
  {
    var inserted := Inserted(sys.svc, c.worker, rs);
    NewAveragingsAre(cfg, inserted, rs);
    forall a | a in NewAveragings(cfg, inserted, rs) ensures AveragingSafe(cfg, a) {
      InsertedRound(cfg, sys, c.worker, rs, a.key);
      FullRound(cfg, inserted.rounds[a.key]);
    }
  }

  lemma AdmittedCall(cfg: Config, sys: Sys, c: CallId, unary: bool, rs: seq<Request>, d: CallId)
    requires c.worker in cfg.workers && c !in sys.calls
    requires d != c ==> d in sys.calls && CallSafe(cfg, sys, d)
    ensures CallSafe(cfg, Admitted(cfg, sys, c, unary, rs), d)
  {
    var after := Admitted(cfg, sys, c, unary, rs);
    forall k | k in after.calls[d].remaining
      ensures k in after.svc.rounds && d.worker in after.svc.rounds[k].submissions
    {
      SentSubmissions(cfg, sys.svc, c.worker, rs, k);
    }
  }

  lemma AdmittedIntact(cfg: Config, sys: Sys, c: CallId, unary: bool, rs: seq<Request>)
    requires UnaryIntact(sys) && c !in sys.calls
    requires AcceptedUpTo(cfg, sys.svc, c.worker, rs, |rs|)
    ensures UnaryIntact(Admitted(cfg, sys, c, unary, rs))
  {
    assert rs[..|rs|] == rs;
    AcceptedDistinct(cfg, sys.svc, c.worker, rs, |rs|);
    OrderPermutes(rs);
    var calls := Woken(sys.calls)[c := Call(unary, Order(rs), Keys(rs), false)];
    forall d | d in calls && calls[d].unary ensures Permutes(calls[d].order, calls[d].remaining) {
      if d != c {
        assert calls[d] == sys.calls[d].(asleep := false);
      }
    }
  }

  lemma AdmittedSafe(cfg: Config, sys: Sys, c: CallId, unary: bool, rs: seq<Request>)
    requires Safe(cfg, sys) && c.worker in cfg.workers && c !in sys.calls
    requires AcceptedUpTo(cfg, sys.svc, c.worker, rs, |rs|)
    ensures Safe(cfg, Admitted(cfg, sys, c, unary, rs))
  {
    var after := Admitted(cfg, sys, c, unary, rs);
    AdmittedIntact(cfg, sys, c, unary, rs);
    forall d | d in after.calls ensures CallSafe(cfg, after, d) {
      assert d != c ==> CallSafe(cfg, sys, d);
      AdmittedCall(cfg, sys, c, unary, rs, d);
    }
    AdmittedAveragings(cfg, sys, c, unary, rs);
    forall k | k in after.svc.rounds ensures RoundSafe(cfg, after, k) {
      InsertedRound(cfg, sys, c.worker, rs, k);
      AdmittedCounts(cfg, sys, c, unary, rs, k);
      assert k !in Keys(rs) ==> RoundSafe(cfg, sys, k);
      AdmittedAnswers(cfg, sys, c, unary, rs, k);
    }
    forall k | k in after.leaked && k !in after.svc.rounds ensures after.leaked[k] == 0 {
      assert k !in sys.svc.rounds;
    }
    forall d | d in after.deliveries ensures DeliverySafe(cfg, after, d) {
      assert DeliverySafe(cfg, sys, d);
    }
  }

  lemma OpenedSafe(cfg: Config, sys: Sys, c: CallId, unary: bool, rs: seq<Request>)
    requires Safe(cfg, sys) && c.worker in cfg.workers && c !in sys.calls
    ensures Safe(cfg, Opened(cfg, sys, c, unary, rs))
  {
    var n := Accepted(cfg, sys.svc, c.worker, rs);
    if n == |rs| {
      AdmittedSafe(cfg, sys, c, unary, rs);
    } else {
      AcceptedPrefix(cfg, sys.svc, c.worker, rs, n);
      TurnedAwaySafe(cfg, sys, c.worker, rs[..n]);
    }
  }

  lemma AcceptedPrefix(cfg: Config, s: Service, w: Worker, rs: seq<Request>, n: nat)
    requires n <= |rs| && AcceptedUpTo(cfg, s, w, rs, n)
    ensures AcceptedUpTo(cfg, s, w, rs[..n], n)
  {
    forall i: nat | i < n ensures RejectionOf(cfg, s, w, rs[..n], i).None? {
      assert RejectionOf(cfg, s, w, rs, i).None?;
      assert rs[..n][..i] == rs[..i];
    }
  }

  // ---------- the other steps ----------

  lemma AnswersSafe(cfg: Config, sys: Sys, c: CallId, order: seq<Key>)
    requires Core(cfg, sys)
    requires forall k | k in order :: k in sys.svc.rounds && sys.svc.rounds[k].Ready()
    ensures forall d | d in Answers(sys.svc, c, order) :: DeliverySafe(cfg, sys, d)
  {
    var ds := Answers(sys.svc, c, order);
    forall d | d in ds ensures DeliverySafe(cfg, sys, d) {
      var i :| 0 <= i < |ds| && ds[i] == d;
      assert order[i] in order;
      RoundAnswersDelivered(cfg, sys, c, order[i]);
    }
  }

  lemma RoundAnswersDelivered(cfg: Config, sys: Sys, c: CallId, k: Key)
    requires Core(cfg, sys)
    requires k in sys.svc.rounds && sys.svc.rounds[k].response.Some?
    ensures DeliverySafe(cfg, sys, Delivery(c, k, sys.svc.rounds[k].response.value))
  {
    assert RoundSafe(cfg, sys, k);
    assert Averaging(k, sys.svc.rounds[k].submissions) in sys.averagings;
  }

  lemma DeliveriesGrow(cfg: Config, sys: Sys, ds: seq<Delivery>)
    requires Safe(cfg, sys)
    requires forall d | d in ds :: DeliverySafe(cfg, sys, d)
    ensures Safe(cfg, sys.(deliveries := sys.deliveries + ds))
  {
    var after := sys.(deliveries := sys.deliveries + ds);
    forall k | k in after.svc.rounds ensures RoundSafe(cfg, after, k) {
      assert RoundSafe(cfg, sys, k);
    }
    forall c | c in after.calls ensures CallSafe(cfg, after, c) {
      assert CallSafe(cfg, sys, c);
    }
    forall d | d in after.deliveries ensures DeliverySafe(cfg, after, d) {
      assert DeliverySafe(cfg, sys, d);
    }
  }

  lemma ReturnSafe(cfg: Config, sys: Sys, c: CallId)
    requires Safe(cfg, sys) && Enabled(cfg, sys, Return(c))
    ensures Safe(cfg, Next(cfg, sys, Return(c)))
  {
    var order := sys.calls[c].order;
    var ds := Answers(sys.svc, c, order);
    var mid := Gone(LeftAll(sys, c, order), c);
    AllGoneSafe(cfg, sys, c, order);
    LeftAllIs(sys, c, order);
    AnswersSafe(cfg, sys, c, order);
    assert forall d | d in ds :: DeliverySafe(cfg, sys, d) ==> DeliverySafe(cfg, mid, d);
    DeliveriesGrow(cfg, mid, ds);
  }

  lemma EmitSafe(cfg: Config, sys: Sys, c: CallId, k: Key)
    requires Safe(cfg, sys) && Enabled(cfg, sys, Emit(c, k))
    ensures Safe(cfg, Next(cfg, sys, Emit(c, k)))
  {
    var left := Left(sys, c, k);
    var d := Delivery(c, k, sys.svc.rounds[k].response.value);
    LeftSafe(cfg, sys, c, k);
    RoundAnswersDelivered(cfg, sys, c, k);
    assert DeliverySafe(cfg, left, d);
    DeliveriesGrow(cfg, left, [d]);
    if left.calls[c].remaining == {} {
      GoneSafe(cfg, left.(deliveries := left.deliveries + [d]), c);
    }
  }

  lemma SleepSafe(cfg: Config, sys: Sys, c: CallId)
    requires Safe(cfg, sys) && Enabled(cfg, sys, Sleep(c))
    requires sys.calls[c].remaining != {}
    ensures Safe(cfg, Next(cfg, sys, Sleep(c)))
  {
    var after := Next(cfg, sys, Sleep(c));
    forall k | k in after.svc.rounds ensures RoundSafe(cfg, after, k) {
      assert RoundSafe(cfg, sys, k);
      assert Holders(after.calls, k) == Holders(sys.calls, k);
    }
    forall d | d in after.calls ensures CallSafe(cfg, after, d) {
      assert CallSafe(cfg, sys, d);
    }
    forall d | d in after.deliveries ensures DeliverySafe(cfg, after, d) {
      assert DeliverySafe(cfg, sys, d);
    }
  }

  /** A round that a call still holds has a waiting receiver, so an abort will not drop it from the map. */
  lemma HeldHasReceivers(cfg: Config, sys: Sys, c: CallId)
    requires Core(cfg, sys) && c in sys.calls
    ensures sys.calls[c].remaining != {} ==> HasReceivers(sys.svc)
  {
    if sys.calls[c].remaining != {} {
      assert CallSafe(cfg, sys, c);
      var k :| k in sys.calls[c].remaining;
      assert RoundSafe(cfg, sys, k);
      assert c in Holders(sys.calls, k);
    }
  }

  lemma AbortSafe(cfg: Config, sys: Sys, reason: string)
    requires Safe(cfg, sys)
    ensures Safe(cfg, Next(cfg, sys, Abort(reason)))
  {
    var after := Next(cfg, sys, Abort(reason));
    if HasReceivers(sys.svc) {
      forall k | k in after.svc.rounds ensures RoundSafe(cfg, after, k) {
        assert RoundSafe(cfg, sys, k);
        assert Holders(after.calls, k) == Holders(sys.calls, k);
      }
      forall d | d in after.deliveries ensures DeliverySafe(cfg, after, d) {
        assert DeliverySafe(cfg, sys, d);
      }
      forall d | d in after.calls ensures CallSafe(cfg, after, d) {
        assert CallSafe(cfg, sys, d);
      }
    } else {
      forall c | c in sys.calls ensures CallSafe(cfg, after, c) {
        assert CallSafe(cfg, sys, c);
        HeldHasReceivers(cfg, sys, c);
      }
    }
  }

  // ---------- whole runs ----------

  /** Every call that is still in the table has rounds left. */
  ghost predicate Busy(sys: Sys) {
    forall c | c in sys.calls :: sys.calls[c].remaining != {}
  }

  lemma NextBusy(cfg: Config, sys: Sys, step: Step)
    requires UnaryIntact(sys) && Busy(sys) && Enabled(cfg, sys, step)
    ensures Busy(Next(cfg, sys, step))
  {
    match step
    case Open(c, unary, rs) =>
      assert rs[0] in rs;
      assert rs[0].key in Keys(rs);
    case Return(c) => LeftAllIs(sys, c, sys.calls[c].order);
    case Emit(c, k) =>
    case Quit(c, order) => LeftAllIs(sys, c, order);
    case Sleep(c) =>
    case Abort(reason) =>
  }

  lemma NextSafe(cfg: Config, sys: Sys, step: Step)
    requires Safe(cfg, sys) && Busy(sys) && Enabled(cfg, sys, step)
    ensures Safe(cfg, Next(cfg, sys, step))
  {
    match step
    case Open(c, unary, rs) => OpenedSafe(cfg, sys, c, unary, rs);
    case Return(c) => ReturnSafe(cfg, sys, c);
    case Emit(c, k) => EmitSafe(cfg, sys, c, k);
    case Quit(c, order) => AllGoneSafe(cfg, sys, c, order);
    case Sleep(c) => SleepSafe(cfg, sys, c);
    case Abort(reason) => AbortSafe(cfg, sys, reason);
  }

  /** Safety of whole runs: any Workers, any batches, any interleaving, aborts and failed streams included. */
  lemma {:induction false} RunSafe(cfg: Config, sys: Sys, steps: seq<Step>)
    requires Safe(cfg, sys) && Busy(sys) && ValidRun(cfg, sys, steps)
    ensures Safe(cfg, After(cfg, sys, steps)) && Busy(After(cfg, sys, steps))
    decreases steps
  {
    if steps != [] {
      NextSafe(cfg, sys, steps[0]);
      NextBusy(cfg, sys, steps[0]);
      RunSafe(cfg, Next(cfg, sys, steps[0]), steps[1..]);
    }
  }
}
