/** What the keyed barrier adds when its callers keep order: a Worker never has two unfinished calls on
    the same layer or group and never goes back to an earlier round of it. A unary call leaves its rounds in the order
    of its batch, so it may hold several rounds of a layer or group if they increase along the batch; a streaming call
    leaves them in any order, so it may hold one. */
module KeyedOrder {
  import opened Wrappers
  import opened Gradients
  import opened KeyedRounds
  import opened KeyedRuns

  /** The rounds of each layer or group increase. */
  predicate Increases(order: seq<Key>) {
    forall i, j | 0 <= i < j < |order| && order[i].id == order[j].id :: order[i].round < order[j].round
  }

  predicate OneRoundEach(ks: set<Key>) {
    forall k, k2 | k in ks && k2 in ks && k.id == k2.id :: k == k2
  }

  predicate BatchOrdered(unary: bool, rs: seq<Request>) {
    if unary then Increases(Order(rs)) else OneRoundEach(Keys(rs))
  }

  ghost predicate Disciplined(sys: Sys, c: CallId, unary: bool, rs: seq<Request>) {
    && BatchOrdered(unary, rs)
    && (forall d, k, k2 | d in sys.calls && d.worker == c.worker && k in sys.calls[d].remaining && k2 in Keys(rs) ::
          k.id != k2.id)
    && (forall k, k2 | k in Sent(sys, c.worker) && k2 in Keys(rs) && k.id == k2.id :: k.round <= k2.round)
  }

  ghost predicate StepDisciplined(sys: Sys, step: Step) {
    step.Open? ==> Disciplined(sys, step.c, step.unary, step.rs)
  }

  /** The step does not drop the maps: only an abort without receivers does. */
  predicate KeepsMaps(sys: Sys, step: Step) {
    step.Abort? ==> HasReceivers(sys.svc)
  }

  ghost predicate HeldFresh(sys: Sys, c: CallId, k: Key)
    requires c in sys.calls
  {
    k.id in sys.svc.completed ==> sys.svc.completed[k.id] < k.round
  }

  /** What the Worker sent of this layer or group after k is held by the same call. */
  ghost predicate HeldLatest(sys: Sys, c: CallId, k: Key)
    requires c in sys.calls
  {
    && k in Sent(sys, c.worker)
    && (forall k2 | k2 in Sent(sys, c.worker) && k2.id == k.id && k2.round > k.round :: k2 in sys.calls[c].remaining)
  }

  ghost predicate HeldAlone(sys: Sys, c: CallId, k: Key)
    requires c in sys.calls
  {
    forall d, k2 | d in sys.calls && d.worker == c.worker && k2 in sys.calls[d].remaining && k2.id == k.id ::
      d == c && (sys.calls[c].unary || k2 == k)
  }

  ghost predicate SubmittedSent(sys: Sys, k: Key)
    requires k in sys.svc.rounds
  {
    forall w | w in sys.svc.rounds[k].submissions :: k in Sent(sys, w)
  }

  /** An averaged key can never be opened again: its round is full, or it is complete. */
  ghost predicate Closed(cfg: Config, sys: Sys, k: Key) {
    && (k in sys.svc.rounds ==> sys.svc.rounds[k].submissions.Keys == cfg.workers)
    && (k !in sys.svc.rounds ==> k.id in sys.svc.completed && k.round <= sys.svc.completed[k.id])
  }

  ghost predicate Once(averagings: seq<Averaging>) {
    forall i, j | 0 <= i < j < |averagings| :: averagings[i].key != averagings[j].key
  }

  ghost predicate CallIncreases(sys: Sys, c: CallId)
    requires c in sys.calls
  {
    sys.calls[c].unary ==> Increases(sys.calls[c].order)
  }

  ghost predicate HeldOrdered(sys: Sys) {
    && (forall c {:trigger CallIncreases(sys, c)} | c in sys.calls :: CallIncreases(sys, c))
    && (forall c, k {:trigger HeldFresh(sys, c, k)} | c in sys.calls && k in sys.calls[c].remaining :: HeldFresh(sys, c, k))
    && (forall c, k {:trigger HeldLatest(sys, c, k)} | c in sys.calls && k in sys.calls[c].remaining :: HeldLatest(sys, c, k))
    && (forall c, k {:trigger HeldAlone(sys, c, k)} | c in sys.calls && k in sys.calls[c].remaining :: HeldAlone(sys, c, k))
  }

  ghost predicate Ordered(cfg: Config, sys: Sys) {
    && HeldOrdered(sys)
    && (forall k {:trigger SubmittedSent(sys, k)} | k in sys.svc.rounds :: SubmittedSent(sys, k))
    && (forall a {:trigger Closed(cfg, sys, a.key)} | a in sys.averagings :: Closed(cfg, sys, a.key))
    && Once(sys.averagings)
  }

  ghost predicate CompletedGrows(s: Service, s2: Service) {
    forall id | id in s.completed :: id in s2.completed && s.completed[id] <= s2.completed[id]
  }

  /** No older round of the same layer or group. */
  predicate Oldest(ks: set<Key>, k: Key) {
    forall k2 | k2 in ks && k2.id == k.id :: k.round <= k2.round
  }

  // ---------- leaving ----------

  /** Completing a round raises the latest completed round of its layer or group, strictly. */
  lemma LeftGrows(cfg: Config, sys: Sys, c: CallId, k: Key)
    requires Ordered(cfg, sys)
    requires c in sys.calls && k in sys.calls[c].remaining && k in sys.svc.rounds
    ensures CompletedGrows(sys.svc, Left(sys, c, k).svc)
    ensures k !in Left(sys, c, k).svc.rounds && k.id in sys.svc.completed ==>
              sys.svc.completed[k.id] < Left(sys, c, k).svc.completed[k.id] == k.round
  {
    assert HeldFresh(sys, c, k);
  }

  lemma LeftHeldFresh(cfg: Config, sys: Sys, c: CallId, k: Key, d: CallId, k2: Key)
    requires c in sys.calls && k in sys.svc.rounds && d in sys.calls
    requires k2 in Left(sys, c, k).calls[d].remaining
    requires CallSafe(cfg, Left(sys, c, k), d) && d.worker in cfg.workers
    requires RoundAnswers(cfg, sys, k) && SubmittedSent(sys, k)
    requires HeldFresh(sys, d, k2) && HeldLatest(sys, d, k2) && Oldest(sys.calls[c].remaining, k)
    ensures HeldFresh(Left(sys, c, k), d, k2)
  {
    var after := Left(sys, c, k);
    assert k2 in after.svc.rounds;
    if k2.id == k.id && k !in after.svc.rounds {
      assert d.worker in sys.svc.rounds[k].submissions;
      assert k2 != k;
    }
  }

  lemma LeftHeld(cfg: Config, sys: Sys, c: CallId, k: Key)
    requires Core(cfg, sys) && Ordered(cfg, sys)
    requires c in sys.calls && !sys.calls[c].asleep && k in sys.calls[c].remaining && k in sys.svc.rounds
    requires Oldest(sys.calls[c].remaining, k)
    ensures HeldOrdered(Left(sys, c, k))
  {
    var after := Left(sys, c, k);
    LeftSafe(cfg, sys, c, k);
    assert RoundSafe(cfg, sys, k) && SubmittedSent(sys, k);
    forall d | d in after.calls ensures CallIncreases(after, d) {
      assert CallIncreases(sys, d);
    }
    forall d, k2 | d in after.calls && k2 in after.calls[d].remaining
      ensures HeldFresh(after, d, k2) && HeldLatest(after, d, k2) && HeldAlone(after, d, k2)
    {
      assert HeldFresh(sys, d, k2) && HeldLatest(sys, d, k2) && HeldAlone(sys, d, k2);
      assert CallSafe(cfg, after, d);
      LeftHeldFresh(cfg, sys, c, k, d, k2);
    }
  }

  lemma LeftOrdered(cfg: Config, sys: Sys, c: CallId, k: Key)
    requires Core(cfg, sys) && Ordered(cfg, sys)
    requires c in sys.calls && !sys.calls[c].asleep && k in sys.calls[c].remaining && k in sys.svc.rounds
    requires Oldest(sys.calls[c].remaining, k)
    ensures Ordered(cfg, Left(sys, c, k))
  {
    var after := Left(sys, c, k);
    LeftHeld(cfg, sys, c, k);
    forall k2 | k2 in after.svc.rounds ensures SubmittedSent(after, k2) {
      assert SubmittedSent(sys, k2);
    }
    LeftGrows(cfg, sys, c, k);
    forall a | a in after.averagings ensures Closed(cfg, after, a.key) {
      assert Closed(cfg, sys, a.key);
    }
  }

  lemma LeftStep(cfg: Config, sys: Sys, c: CallId, order: seq<Key>)
    requires Core(cfg, sys) && Ordered(cfg, sys)
    requires c in sys.calls && !sys.calls[c].asleep
    requires order != [] && Releasable(sys.svc, order)
    requires Permutes(order, sys.calls[c].remaining) && Increases(order)
    ensures var left := Left(sys, c, order[0]);
            && Core(cfg, left) && Ordered(cfg, left)
            && CompletedGrows(sys.svc, left.svc)
            && c in left.calls && !left.calls[c].asleep
            && Releasable(left.svc, order[1..])
            && Permutes(order[1..], left.calls[c].remaining) && Increases(order[1..])
  {
    var k := order[0];
    assert k in order;
    FirstOldest(order, sys.calls[c].remaining);
    LeftSafe(cfg, sys, c, k);
    LeftOrdered(cfg, sys, c, k);
    LeftGrows(cfg, sys, c, k);
    RestPermutes(order, sys.calls[c].remaining);
  }

  lemma FirstOldest(order: seq<Key>, ks: set<Key>)
    requires order != [] && Permutes(order, ks) && Increases(order)
    ensures Oldest(ks, order[0])
  {
    forall k | k in ks && k.id == order[0].id ensures order[0].round <= k.round {
      var i :| 0 <= i < |order| && order[i] == k;
    }
  }

  lemma RestPermutes(order: seq<Key>, ks: set<Key>)
    requires order != [] && Permutes(order, ks)
    ensures Permutes(order[1..], ks - {order[0]})
    ensures forall k | k in order[1..] :: k in order && k != order[0]
    ensures Increases(order) ==> Increases(order[1..])
  {
    forall k | k in ks - {order[0]} ensures k in order[1..] {
      var i :| 0 <= i < |order| && order[i] == k;
      assert order[1..][i - 1] == k;
    }
  }

  lemma {:induction false} LeftAllOrdered(cfg: Config, sys: Sys, c: CallId, order: seq<Key>)
    requires Core(cfg, sys) && Ordered(cfg, sys)
    requires c in sys.calls && !sys.calls[c].asleep
    requires Releasable(sys.svc, order)
    requires Permutes(order, sys.calls[c].remaining) && Increases(order)
    ensures Ordered(cfg, LeftAll(sys, c, order))
    ensures CompletedGrows(sys.svc, LeftAll(sys, c, order).svc)
    decreases order
  {
    if order != [] {
      LeftStep(cfg, sys, c, order);
      LeftAllOrdered(cfg, Left(sys, c, order[0]), c, order[1..]);
    }
  }

  lemma GoneOrdered(cfg: Config, sys: Sys, c: CallId)
    requires Ordered(cfg, sys) && c in sys.calls
    ensures Ordered(cfg, Gone(sys, c))
  {
    var after := Gone(sys, c);
    forall d | d in after.calls ensures CallIncreases(after, d) {
      assert CallIncreases(sys, d);
    }
    forall d, k2 | d in after.calls && k2 in after.calls[d].remaining
      ensures HeldFresh(after, d, k2) && HeldLatest(after, d, k2) && HeldAlone(after, d, k2)
    {
      assert HeldFresh(sys, d, k2) && HeldLatest(sys, d, k2) && HeldAlone(sys, d, k2);
    }
    forall k2 | k2 in after.svc.rounds ensures SubmittedSent(after, k2) {
      assert SubmittedSent(sys, k2);
    }
    forall a | a in after.averagings ensures Closed(cfg, after, a.key) {
      assert Closed(cfg, sys, a.key);
    }
  }

  // ---------- opening ----------

  lemma NewAveragingsOnce(cfg: Config, s: Service, rs: seq<Request>)
    requires DistinctKeys(rs)
    ensures Once(NewAveragings(cfg, s, rs))
  {
    if rs != [] {
      assert DistinctKeys(rs[1..]);
      NewAveragingsOnce(cfg, s, rs[1..]);
      NewAveragingsAre(cfg, s, rs[1..]);
      forall a | a in NewAveragings(cfg, s, rs[1..]) ensures a.key != rs[0].key {
        var r :| r in rs[1..] && r.key == a.key;
        var i :| 0 <= i < |rs[1..]| && rs[1..][i] == r;
        assert rs[0].key != rs[i + 1].key;
      }
    }
  }

  /** A key that was averaged is not accepted again. */
  lemma ClosedNotAccepted(cfg: Config, sys: Sys, w: Worker, rs: seq<Request>, k: Key)
    requires w in cfg.workers && AcceptedUpTo(cfg, sys.svc, w, rs, |rs|)
    requires Closed(cfg, sys, k)
    ensures k !in Keys(rs)
  {
    if k in Keys(rs) {
      assert rs[..|rs|] == rs;
      AcceptedKey(cfg, sys.svc, w, rs, |rs|, k);
    }
  }

  lemma OpenedHeld(sys: Sys, after: Sys, c: CallId, unary: bool, rs: seq<Request>, taken: seq<Request>)
    requires HeldOrdered(sys) && Disciplined(sys, c, unary, rs)
    requires Keys(taken) <= Keys(rs) && c !in sys.calls
    requires after.svc.completed == sys.svc.completed
    requires after.sent == sys.sent[c.worker := Sent(sys, c.worker) + Keys(taken)]
    requires after.calls.Keys <= sys.calls.Keys + {c}
    requires forall d | d in after.calls && d != c :: SameRounds(after.calls[d], sys.calls[d])
    requires c in after.calls ==>
               && (forall k | k in Keys(rs) :: k.id in sys.svc.completed ==> sys.svc.completed[k.id] < k.round)
               && Keys(taken) == Keys(rs) && SameRounds(after.calls[c], Call(unary, Order(rs), Keys(rs), false))
    ensures HeldOrdered(after)
  {
    forall d | d in after.calls ensures CallIncreases(after, d) {
      if d != c {
        assert CallIncreases(sys, d);
      }
    }
    forall d, k | d in after.calls && k in after.calls[d].remaining
      ensures HeldFresh(after, d, k) && HeldLatest(after, d, k) && HeldAlone(after, d, k)
    {
      if d != c {
        assert HeldFresh(sys, d, k) && HeldLatest(sys, d, k) && HeldAlone(sys, d, k);
      }
    }
  }

  predicate SameRounds(a: Call, b: Call) {
    a.unary == b.unary && a.order == b.order && a.remaining == b.remaining
  }

  lemma InsertedSent(cfg: Config, sys: Sys, after: Sys, w: Worker, rs: seq<Request>)
    requires forall k | k in sys.svc.rounds :: SubmittedSent(sys, k)
    requires after.sent == sys.sent[w := Sent(sys, w) + Keys(rs)]
    requires after.svc.rounds.Keys == Inserted(sys.svc, w, rs).rounds.Keys
    requires forall k | k in after.svc.rounds ::
      after.svc.rounds[k].submissions.Keys == Inserted(sys.svc, w, rs).rounds[k].submissions.Keys
    ensures forall k | k in after.svc.rounds :: SubmittedSent(after, k)
  {
    forall k | k in after.svc.rounds ensures SubmittedSent(after, k) {
      if k in sys.svc.rounds {
        assert SubmittedSent(sys, k);
      }
    }
  }

  lemma InsertedClosed(cfg: Config, sys: Sys, after: Sys, w: Worker, rs: seq<Request>)
    requires w in cfg.workers && AcceptedUpTo(cfg, sys.svc, w, rs, |rs|)
    requires forall a | a in sys.averagings :: Closed(cfg, sys, a.key)
    requires after.svc.completed == sys.svc.completed
    requires after.svc.rounds.Keys == Inserted(sys.svc, w, rs).rounds.Keys
    requires forall k | k in after.svc.rounds ::
      after.svc.rounds[k].submissions == Inserted(sys.svc, w, rs).rounds[k].submissions
    ensures forall a | a in sys.averagings :: Closed(cfg, after, a.key) && a.key !in Keys(rs)
  {
    forall a | a in sys.averagings ensures Closed(cfg, after, a.key) && a.key !in Keys(rs) {
      ClosedNotAccepted(cfg, sys, w, rs, a.key);
    }
  }

  lemma AcceptedFresh(cfg: Config, s: Service, w: Worker, rs: seq<Request>)
    requires AcceptedUpTo(cfg, s, w, rs, |rs|)
    ensures forall k | k in Keys(rs) :: k.id in s.completed ==> s.completed[k.id] < k.round
  {
    assert rs[..|rs|] == rs;
    forall k | k in Keys(rs) ensures k.id in s.completed ==> s.completed[k.id] < k.round {
      AcceptedKey(cfg, s, w, rs, |rs|, k);
    }
  }

  lemma TurnedAwayOrdered(cfg: Config, sys: Sys, c: CallId, unary: bool, rs: seq<Request>, n: nat)
    requires Ordered(cfg, sys) && Disciplined(sys, c, unary, rs)
    requires c.worker in cfg.workers && c !in sys.calls
    requires n <= |rs| && AcceptedUpTo(cfg, sys.svc, c.worker, rs[..n], n)
    ensures Ordered(cfg, TurnedAway(sys, c.worker, rs[..n]))
  {
    var after := TurnedAway(sys, c.worker, rs[..n]);
    assert Keys(rs[..n]) <= Keys(rs) by {
      forall k | k in Keys(rs[..n]) ensures k in Keys(rs) {
        var r :| r in rs[..n] && r.key == k;
        assert r in rs;
      }
    }
    OpenedHeld(sys, after, c, unary, rs, rs[..n]);
    InsertedSent(cfg, sys, after, c.worker, rs[..n]);
    InsertedClosed(cfg, sys, after, c.worker, rs[..n]);
  }

  lemma AdmittedOnce(cfg: Config, sys: Sys, w: Worker, rs: seq<Request>)
    requires Core(cfg, sys) && w in cfg.workers
    requires AcceptedUpTo(cfg, sys.svc, w, rs, |rs|)
    requires forall a | a in sys.averagings :: a.key !in Keys(rs)
    requires Once(sys.averagings)
    ensures Once(sys.averagings + NewAveragings(cfg, Inserted(sys.svc, w, rs), rs))
  {
    var news := NewAveragings(cfg, Inserted(sys.svc, w, rs), rs);
    assert rs[..|rs|] == rs;
    AcceptedDistinct(cfg, sys.svc, w, rs, |rs|);
    NewAveragingsOnce(cfg, Inserted(sys.svc, w, rs), rs);
    NewAveragingsAre(cfg, Inserted(sys.svc, w, rs), rs);
    forall i, j | 0 <= i < |sys.averagings| && 0 <= j < |news| ensures sys.averagings[i].key != news[j].key {
      assert sys.averagings[i] in sys.averagings;
      assert news[j] in news;
    }
  }

  lemma AdmittedClosed(cfg: Config, sys: Sys, c: CallId, unary: bool, rs: seq<Request>)
    requires Core(cfg, sys) && c.worker in cfg.workers
    requires AcceptedUpTo(cfg, sys.svc, c.worker, rs, |rs|)
    ensures forall a | a in NewAveragings(cfg, Inserted(sys.svc, c.worker, rs), rs) ::
              Closed(cfg, Admitted(cfg, sys, c, unary, rs), a.key)
  {
    var after := Admitted(cfg, sys, c, unary, rs);
    var inserted := Inserted(sys.svc, c.worker, rs);
    NewAveragingsAre(cfg, inserted, rs);
    forall a | a in NewAveragings(cfg, inserted, rs) ensures Closed(cfg, after, a.key) {
      InsertedRound(cfg, sys, c.worker, rs, a.key);
      FullRound(cfg, inserted.rounds[a.key]);
    }
  }

  lemma AdmittedHeld(cfg: Config, sys: Sys, c: CallId, unary: bool, rs: seq<Request>)
    requires HeldOrdered(sys) && Disciplined(sys, c, unary, rs) && c !in sys.calls
    requires forall k | k in Keys(rs) :: k.id in sys.svc.completed ==> sys.svc.completed[k.id] < k.round
    ensures HeldOrdered(Admitted(cfg, sys, c, unary, rs))
  {
    OpenedHeld(sys, Admitted(cfg, sys, c, unary, rs), c, unary, rs, rs);
  }

  lemma AdmittedSentAt(cfg: Config, sys: Sys, c: CallId, unary: bool, rs: seq<Request>, k: Key)
    requires k in Inserted(sys.svc, c.worker, rs).rounds
    requires k in sys.svc.rounds ==> SubmittedSent(sys, k)
    ensures SubmittedSent(Admitted(cfg, sys, c, unary, rs), k)
  {
    SentSubmissions(cfg, sys.svc, c.worker, rs, k);
  }

  lemma AdmittedSent(cfg: Config, sys: Sys, c: CallId, unary: bool, rs: seq<Request>)
    requires forall k {:trigger SubmittedSent(sys, k)} | k in sys.svc.rounds :: SubmittedSent(sys, k)
    ensures var after := Admitted(cfg, sys, c, unary, rs);
            forall k {:trigger SubmittedSent(after, k)} | k in after.svc.rounds :: SubmittedSent(after, k)
  {
    var after := Admitted(cfg, sys, c, unary, rs);
    forall k | k in after.svc.rounds ensures SubmittedSent(after, k) {
      assert k in sys.svc.rounds ==> SubmittedSent(sys, k);
      AdmittedSentAt(cfg, sys, c, unary, rs, k);
    }
  }

  lemma AdmittedKeepsClosed(cfg: Config, sys: Sys, c: CallId, unary: bool, rs: seq<Request>, k: Key)
    requires Closed(cfg, sys, k) && k !in Keys(rs)
    ensures Closed(cfg, Admitted(cfg, sys, c, unary, rs), k)
  {
  }

  lemma AdmittedOrdered(cfg: Config, sys: Sys, c: CallId, unary: bool, rs: seq<Request>)
    requires Core(cfg, sys) && Ordered(cfg, sys) && Disciplined(sys, c, unary, rs)
    requires c.worker in cfg.workers && c !in sys.calls
    requires AcceptedUpTo(cfg, sys.svc, c.worker, rs, |rs|)
    ensures Ordered(cfg, Admitted(cfg, sys, c, unary, rs))
  {
    AcceptedFresh(cfg, sys.svc, c.worker, rs);
    AdmittedHeld(cfg, sys, c, unary, rs);
    AdmittedSent(cfg, sys, c, unary, rs);
    AdmittedClosed(cfg, sys, c, unary, rs);
    forall a | a in sys.averagings
      ensures Closed(cfg, Admitted(cfg, sys, c, unary, rs), a.key) && a.key !in Keys(rs)
    {
      ClosedNotAccepted(cfg, sys, c.worker, rs, a.key);
      AdmittedKeepsClosed(cfg, sys, c, unary, rs, a.key);
    }
    AdmittedOnce(cfg, sys, c.worker, rs);
  }

  // ---------- whole runs ----------

  lemma OpenedOrdered(cfg: Config, sys: Sys, c: CallId, unary: bool, rs: seq<Request>)
    requires Core(cfg, sys) && Ordered(cfg, sys) && Disciplined(sys, c, unary, rs)
    requires c.worker in cfg.workers && c !in sys.calls
    ensures Ordered(cfg, Opened(cfg, sys, c, unary, rs))
    ensures Opened(cfg, sys, c, unary, rs).svc.completed == sys.svc.completed
  {
    var n := Accepted(cfg, sys.svc, c.worker, rs);
    if n == |rs| {
      AdmittedOrdered(cfg, sys, c, unary, rs);
    } else {
      AcceptedPrefix(cfg, sys.svc, c.worker, rs, n);
      TurnedAwayOrdered(cfg, sys, c, unary, rs, n);
    }
  }

  /** Nothing in Ordered looks at who sleeps, at errors, at waiting counts or at deliveries. */
  lemma SameOrder(cfg: Config, sys: Sys, after: Sys)
    requires Ordered(cfg, sys)
    requires after.calls.Keys == sys.calls.Keys
    requires forall c | c in sys.calls :: SameRounds(after.calls[c], sys.calls[c])
    requires after.svc.completed == sys.svc.completed && after.svc.rounds.Keys == sys.svc.rounds.Keys
    requires forall k | k in sys.svc.rounds :: after.svc.rounds[k].submissions == sys.svc.rounds[k].submissions
    requires after.sent == sys.sent && after.averagings == sys.averagings
    ensures Ordered(cfg, after)
  {
    forall c | c in after.calls ensures CallIncreases(after, c) {
      assert CallIncreases(sys, c);
    }
    forall c, k | c in after.calls && k in after.calls[c].remaining
      ensures HeldFresh(after, c, k) && HeldLatest(after, c, k) && HeldAlone(after, c, k)
    {
      assert HeldFresh(sys, c, k) && HeldLatest(sys, c, k) && HeldAlone(sys, c, k);
    }
    forall k | k in after.svc.rounds ensures SubmittedSent(after, k) {
      assert SubmittedSent(sys, k);
    }
    forall a | a in after.averagings ensures Closed(cfg, after, a.key) {
      assert Closed(cfg, sys, a.key);
    }
  }

  lemma AbortOrdered(cfg: Config, sys: Sys, reason: string)
    requires Safe(cfg, sys) && Ordered(cfg, sys)
    ensures Ordered(cfg, Next(cfg, sys, Abort(reason)))
    ensures HasReceivers(sys.svc) ==> CompletedGrows(sys.svc, Next(cfg, sys, Abort(reason)).svc)
  {
    var after := Next(cfg, sys, Abort(reason));
    if HasReceivers(sys.svc) {
      SameOrder(cfg, sys, after);
    } else {
      forall c | c in after.calls ensures after.calls[c].remaining == {} && CallIncreases(after, c) {
        assert CallIncreases(sys, c);
        HeldHasReceivers(cfg, sys, c);
      }
    }
  }

  lemma ReturnOrdered(cfg: Config, sys: Sys, c: CallId)
    requires Safe(cfg, sys) && Ordered(cfg, sys) && Enabled(cfg, sys, Return(c))
    ensures Ordered(cfg, Next(cfg, sys, Return(c)))
    ensures CompletedGrows(sys.svc, Next(cfg, sys, Return(c)).svc)
  {
    var order := sys.calls[c].order;
    assert CallIncreases(sys, c);
    LeftAllOrdered(cfg, sys, c, order);
    LeftAllIs(sys, c, order);
    var gone := Gone(LeftAll(sys, c, order), c);
    GoneOrdered(cfg, LeftAll(sys, c, order), c);
    SameOrder(cfg, gone, Next(cfg, sys, Return(c)));
  }

  lemma QuitOrdered(cfg: Config, sys: Sys, c: CallId, order: seq<Key>)
    requires Safe(cfg, sys) && Ordered(cfg, sys) && Enabled(cfg, sys, Quit(c, order))
    ensures Ordered(cfg, Next(cfg, sys, Quit(c, order)))
    ensures CompletedGrows(sys.svc, Next(cfg, sys, Quit(c, order)).svc)
  {
    HoldsOneEach(sys, c);
    OneEachIncreases(order, sys.calls[c].remaining);
    LeftAllOrdered(cfg, sys, c, order);
    LeftAllIs(sys, c, order);
    GoneOrdered(cfg, LeftAll(sys, c, order), c);
  }

  lemma HoldsOneEach(sys: Sys, c: CallId)
    requires HeldOrdered(sys) && c in sys.calls && !sys.calls[c].unary
    ensures OneRoundEach(sys.calls[c].remaining)
  {
    forall k, k2 | k in sys.calls[c].remaining && k2 in sys.calls[c].remaining && k.id == k2.id ensures k == k2 {
      assert HeldAlone(sys, c, k);
    }
  }

  lemma OneEachIncreases(order: seq<Key>, ks: set<Key>)
    requires Permutes(order, ks) && OneRoundEach(ks)
    ensures Increases(order)
  {
    forall i, j | 0 <= i < j < |order| ensures order[i].id != order[j].id {
      assert order[i] in ks && order[j] in ks;
    }
  }

  lemma EmitOrdered(cfg: Config, sys: Sys, c: CallId, k: Key)
    requires Safe(cfg, sys) && Ordered(cfg, sys) && Enabled(cfg, sys, Emit(c, k))
    ensures Ordered(cfg, Next(cfg, sys, Emit(c, k)))
    ensures CompletedGrows(sys.svc, Next(cfg, sys, Emit(c, k)).svc)
  {
    var left := Left(sys, c, k);
    HoldsOneEach(sys, c);
    LeftOrdered(cfg, sys, c, k);
    LeftGrows(cfg, sys, c, k);
    var told := left.(deliveries := left.deliveries + [Delivery(c, k, sys.svc.rounds[k].response.value)]);
    SameOrder(cfg, left, told);
    GoneOrdered(cfg, told, c);
  }

  lemma NextOrdered(cfg: Config, sys: Sys, step: Step)
    requires Safe(cfg, sys) && Ordered(cfg, sys)
    requires Enabled(cfg, sys, step) && StepDisciplined(sys, step)
    ensures Ordered(cfg, Next(cfg, sys, step))
    ensures KeepsMaps(sys, step) ==> CompletedGrows(sys.svc, Next(cfg, sys, step).svc)
  {
    match step
    case Open(c, unary, rs) => OpenedOrdered(cfg, sys, c, unary, rs);
    case Return(c) => ReturnOrdered(cfg, sys, c);
    case Emit(c, k) => EmitOrdered(cfg, sys, c, k);
    case Quit(c, order) => QuitOrdered(cfg, sys, c, order);
    case Sleep(c) => SameOrder(cfg, sys, Next(cfg, sys, step));
    case Abort(reason) => AbortOrdered(cfg, sys, reason);
  }

  ghost predicate DisciplinedRun(cfg: Config, sys: Sys, steps: seq<Step>)
    requires ValidRun(cfg, sys, steps)
    decreases steps
  {
    steps == [] ||
    (StepDisciplined(sys, steps[0]) && DisciplinedRun(cfg, Next(cfg, sys, steps[0]), steps[1..]))
  }

  ghost predicate MapsKept(cfg: Config, sys: Sys, steps: seq<Step>)
    requires ValidRun(cfg, sys, steps)
    decreases steps
  {
    steps == [] || (KeepsMaps(sys, steps[0]) && MapsKept(cfg, Next(cfg, sys, steps[0]), steps[1..]))
  }

  lemma {:induction false} RunOrdered(cfg: Config, sys: Sys, steps: seq<Step>)
    requires Safe(cfg, sys) && Busy(sys) && Ordered(cfg, sys)
    requires ValidRun(cfg, sys, steps) && DisciplinedRun(cfg, sys, steps)
    ensures Safe(cfg, After(cfg, sys, steps)) && Busy(After(cfg, sys, steps)) && Ordered(cfg, After(cfg, sys, steps))
    ensures MapsKept(cfg, sys, steps) ==> CompletedGrows(sys.svc, After(cfg, sys, steps).svc)
    decreases steps
  {
    if steps != [] {
      NextSafe(cfg, sys, steps[0]);
      NextBusy(cfg, sys, steps[0]);
      NextOrdered(cfg, sys, steps[0]);
      RunOrdered(cfg, Next(cfg, sys, steps[0]), steps[1..]);
    }
  }

  /** In every disciplined run from an empty service, between map resets: no key is averaged twice, each
      averaging uses exactly one submission from each assigned Worker, and any two callers that received
      a response for the same key received the same one, the average of those submissions. */
  lemma OneAnswerPerKey(cfg: Config, steps: seq<Step>)
    requires ValidRun(cfg, INIT, steps) && DisciplinedRun(cfg, INIT, steps)
    ensures var sys := After(cfg, INIT, steps);
            Once(sys.averagings) && OneAnswer(cfg, sys)
  {
    RunOrdered(cfg, INIT, steps);
    AnswersAgree(cfg, After(cfg, INIT, steps));
  }

  /** Each averaging uses exactly one submission from each assigned Worker, every response handed out is the average of
      such submissions, and callers that received a response for the same key received the same one. */
  ghost predicate OneAnswer(cfg: Config, sys: Sys) {
    && (forall a | a in sys.averagings :: a.submissions.Keys == cfg.workers)
    && (forall d, d2 | d in sys.deliveries && d2 in sys.deliveries && d.key == d2.key :: d.response == d2.response)
    && (forall d | d in sys.deliveries ::
          exists a | a in sys.averagings :: a.key == d.key && cfg.average(a.submissions) == Average(d.response))
  }

  lemma AnswersAgree(cfg: Config, sys: Sys)
    requires Core(cfg, sys) && Once(sys.averagings)
    ensures OneAnswer(cfg, sys)
  {
    forall a | a in sys.averagings ensures a.submissions.Keys == cfg.workers {
      assert AveragingSafe(cfg, a);
    }
    forall d | d in sys.deliveries
      ensures exists a | a in sys.averagings :: a.key == d.key && cfg.average(a.submissions) == Average(d.response)
    {
      assert DeliverySafe(cfg, sys, d);
    }
    forall d, d2 | d in sys.deliveries && d2 in sys.deliveries && d.key == d2.key ensures d.response == d2.response {
      var a :| a in sys.averagings && a.key == d.key && cfg.average(a.submissions) == Average(d.response);
      var a2 :| a2 in sys.averagings && a2.key == d2.key && cfg.average(a2.submissions) == Average(d2.response);
      OnceUnique(sys.averagings, a, a2);
    }
  }

  lemma OnceUnique(averagings: seq<Averaging>, a: Averaging, a2: Averaging)
    requires Once(averagings) && a in averagings && a2 in averagings && a.key == a2.key
    ensures a == a2
  {
    var i :| 0 <= i < |averagings| && averagings[i] == a;
    var j :| 0 <= j < |averagings| && averagings[j] == a2;
    assert i == j;
  }
}
