/** How little order the callers of the keyed barrier have to keep: a batch must not share a layer or group with an
    unfinished call of its Worker, and must not leave an older round of one last. Batches that keep the stricter order
    of KeyedOrder do neither, and KeyedDiscipline shows that less is not enough. In every run of such harmless batches
    the record never moves back, and no key is averaged twice. */
module KeyedHarmless {
  import opened Wrappers
  import opened Gradients
  import opened KeyedRounds
  import opened KeyedRuns
  import opened KeyedOrder
  import opened KeyedBackwards
  import opened KeyedOvertaken

  /** The Worker has an unfinished call on a layer or group of the batch. */
  ghost predicate SecondCall(sys: Sys, c: CallId, rs: seq<Request>) {
    exists d, h, k :: d in sys.calls && Shares(sys, c, rs, d, h, k)
  }

  ghost predicate Shares(sys: Sys, c: CallId, rs: seq<Request>, d: CallId, h: Key, k: Key)
    requires d in sys.calls
  {
    d.worker == c.worker && h in sys.calls[d].remaining && k in Keys(rs) && h.id == k.id
  }

  /** The batch names a round older than one of the same layer or group that the Worker sent before or in the batch, and
      its call can leave it last: a streaming call always, a unary one if the rounds that come after it stay open. */
  ghost predicate LeavesOlder(cfg: Config, sys: Sys, c: CallId, unary: bool, rs: seq<Request>) {
    exists k1, k2 :: Behind(cfg, sys, c, unary, rs, k1, k2)
  }

  ghost predicate Behind(cfg: Config, sys: Sys, c: CallId, unary: bool, rs: seq<Request>, k1: Key, k2: Key) {
    && k1 in Keys(rs) && k2 in Sent(sys, c.worker) + Keys(rs) && k1.id == k2.id && k1.round < k2.round
    && (unary ==> LeftLast(Admitted(cfg, sys, c, unary, rs), c, Order(rs), k1, k2))
  }

  ghost predicate Harmless(cfg: Config, sys: Sys, c: CallId, unary: bool, rs: seq<Request>) {
    && !SecondCall(sys, c, rs)
    && (Accepted(cfg, sys.svc, c.worker, rs) == |rs| ==> !LeavesOlder(cfg, sys, c, unary, rs))
  }

  ghost predicate StepHarmless(cfg: Config, sys: Sys, step: Step) {
    step.Open? ==> Harmless(cfg, sys, step.c, step.unary, step.rs)
  }

  ghost predicate HarmlessRun(cfg: Config, sys: Sys, steps: seq<Step>)
    requires ValidRun(cfg, sys, steps)
    decreases steps
  {
    steps == [] || (StepHarmless(cfg, sys, steps[0]) && HarmlessRun(cfg, Next(cfg, sys, steps[0]), steps[1..]))
  }

  // ---------- what harmless batches keep ----------

  /** Call c can leave k1 last although its Worker has sent the newer k2. */
  ghost predicate OutOfPlace(sys: Sys, c: CallId, k1: Key, k2: Key)
    requires c in sys.calls
  {
    && k1 in sys.calls[c].remaining && k2 in Sent(sys, c.worker) && k1.id == k2.id && k1.round < k2.round
    && (sys.calls[c].unary ==> LeftLast(sys, c, sys.calls[c].order, k1, k2))
  }

  ghost predicate CallTidy(sys: Sys, c: CallId)
    requires c in sys.calls
  {
    forall k1, k2 :: !OutOfPlace(sys, c, k1, k2)
  }

  ghost predicate SentByAll(cfg: Config, sys: Sys, k: Key) {
    forall w | w in cfg.workers :: k in Sent(sys, w)
  }

  ghost predicate CallsTidy(sys: Sys) {
    forall c {:trigger CallTidy(sys, c)} | c in sys.calls :: CallTidy(sys, c)
  }

  ghost predicate RoundsSent(sys: Sys) {
    forall k {:trigger SubmittedSent(sys, k)} | k in sys.svc.rounds :: SubmittedSent(sys, k)
  }

  ghost predicate AveragedTidy(cfg: Config, sys: Sys) {
    forall a {:trigger Closed(cfg, sys, a.key)} | a in sys.averagings ::
      Closed(cfg, sys, a.key) && SentByAll(cfg, sys, a.key)
  }

  /** The latest completed round of a layer or group was averaged, and is gone. */
  ghost predicate RecordTidy(sys: Sys, id: string)
    requires id in sys.svc.completed
  {
    var k := Key(id, sys.svc.completed[id]);
    k !in sys.svc.rounds && Averaged(sys, k)
  }

  ghost predicate RecordsTidy(sys: Sys) {
    forall id {:trigger RecordTidy(sys, id)} | id in sys.svc.completed :: RecordTidy(sys, id)
  }

  ghost predicate Tidy(cfg: Config, sys: Sys) {
    && CallsTidy(sys) && RoundsSent(sys) && AveragedTidy(cfg, sys) && RecordsTidy(sys)
    && Once(sys.averagings)
  }

  // ---------- calls that stay ----------

  /** The keys of this layer or group are the same. */
  ghost predicate SameOfId(ks: set<Key>, ks2: set<Key>, id: string) {
    forall k: Key | k.id == id :: k in ks <==> k in ks2
  }

  /** If round k has its response, it keeps it and gains no receiver. */
  ghost predicate NoNewReceiver(sys: Sys, after: Sys, d: CallId, k: Key) {
    && k in sys.svc.rounds && k in after.svc.rounds
    && (sys.svc.rounds[k].response.Some? ==>
          && after.svc.rounds[k].response.Some? && Leaked(after, k) == Leaked(sys, k)
          && forall e | e in after.calls && k in after.calls[e].remaining && e != d ::
               e in sys.calls && SameOfId(sys.calls[e].remaining, after.calls[e].remaining, k.id))
  }

  lemma NothingOpens(sys: Sys, after: Sys, d: CallId, k: Key, k1: Key, k2: Key)
    requires NoNewReceiver(sys, after, d, k) && k1.id == k.id && k2.id == k.id
    requires StaysOpen(after, d, k, k1, k2)
    ensures StaysOpen(sys, d, k, k1, k2)
  {
    if e :| e in after.calls && Guards(after.calls[e], k, k1, k2) && e != d {
      if sys.svc.rounds[k].response.Some? {
        assert Guards(sys.calls[e], k, k1, k2);
      }
    }
  }

  /** What the Worker has sent since has nothing to do with the rounds that call d holds. */
  ghost predicate SendsOthers(sys: Sys, after: Sys, d: CallId)
    requires d in sys.calls
  {
    forall h, k | h in sys.calls[d].remaining && k in Sent(after, d.worker) && h.id == k.id :: k in Sent(sys, d.worker)
  }

  lemma StaysTidy(sys: Sys, after: Sys, d: CallId)
    requires d in sys.calls && CallTidy(sys, d) && SendsOthers(sys, after, d)
    requires d in after.calls && SameRounds(after.calls[d], sys.calls[d])
    requires after.calls[d].unary ==> Permutes(sys.calls[d].order, sys.calls[d].remaining)
    requires forall k | k in sys.calls[d].remaining :: NoNewReceiver(sys, after, d, k)
    ensures CallTidy(after, d)
  {
    forall k1, k2 | OutOfPlace(after, d, k1, k2) ensures OutOfPlace(sys, d, k1, k2) {
      var order := sys.calls[d].order;
      if sys.calls[d].unary {
        forall p, q | 0 <= p < q < |order| && order[p] == k1 && order[q].id == k1.id
          ensures StaysOpen(sys, d, order[q], k1, k2)
        {
          assert order[q] in order && StaysOpen(after, d, order[q], k1, k2);
          NothingOpens(sys, after, d, order[q], k1, k2);
        }
      }
    }
  }

  /** Nothing in Tidy looks at who sleeps, at errors, at waiting counts or at deliveries. */
  ghost predicate SameForTidy(sys: Sys, after: Sys) {
    && after.svc.completed == sys.svc.completed && after.svc.rounds.Keys == sys.svc.rounds.Keys
    && (forall k | k in sys.svc.rounds ::
          && after.svc.rounds[k].submissions == sys.svc.rounds[k].submissions
          && after.svc.rounds[k].response == sys.svc.rounds[k].response)
    && after.calls.Keys == sys.calls.Keys && (forall c | c in sys.calls :: SameRounds(after.calls[c], sys.calls[c]))
    && after.leaked == sys.leaked && after.sent == sys.sent && after.averagings == sys.averagings
  }

  lemma SameTidy(cfg: Config, sys: Sys, after: Sys)
    requires Safe(cfg, sys) && Tidy(cfg, sys) && SameForTidy(sys, after)
    ensures Tidy(cfg, after)
  {
    forall d | d in after.calls ensures CallTidy(after, d) {
      assert CallSafe(cfg, sys, d) && CallTidy(sys, d);
      StaysTidy(sys, after, d);
    }
    forall k | k in after.svc.rounds ensures SubmittedSent(after, k) {
      assert SubmittedSent(sys, k);
    }
    forall a | a in after.averagings ensures Closed(cfg, after, a.key) && SentByAll(cfg, after, a.key) {
      assert Closed(cfg, sys, a.key);
    }
    SameRecords(sys, after);
  }

  lemma SameRecords(sys: Sys, after: Sys)
    requires RecordsTidy(sys) && after.svc.completed == sys.svc.completed && sys.averagings <= after.averagings
    requires forall id | id in sys.svc.completed && Key(id, sys.svc.completed[id]) in after.svc.rounds ::
               Key(id, sys.svc.completed[id]) in sys.svc.rounds
    ensures RecordsTidy(after)
  {
    forall id | id in after.svc.completed ensures RecordTidy(after, id) {
      assert RecordTidy(sys, id);
      var a :| a in sys.averagings && a.key == Key(id, sys.svc.completed[id]);
      assert a in after.averagings;
    }
  }

  // ---------- leaving ----------

  /** Only a round that the call leaves as the last receiver goes. */
  lemma {:induction false} GoneWhen(s: Service, order: seq<Key>, k: Key)
    requires Releasable(s, order) && k in s.rounds
    ensures k !in ReleasedAll(s, order).rounds <==> k in order && LastReceiver(s, k)
    decreases order
  {
    if order != [] {
      assert forall k2 | k2 in order[1..] :: k2 in order && k2 != order[0];
      assert k in order <==> k == order[0] || k in order[1..];
      if k in Released(s, order[0]).rounds {
        GoneWhen(Released(s, order[0]), order[1..], k);
      } else {
        StaysGone(Released(s, order[0]), order[1..], k);
      }
    }
  }

  lemma StaysGone(s: Service, order: seq<Key>, k: Key)
    requires Releasable(s, order) && k !in s.rounds
    ensures k !in ReleasedAll(s, order).rounds
  {
    ReleasedKeeps(s, order);
  }

  /** Position n is the last one at which the call completes a round of this layer or group. */
  predicate CompletesLast(s: Service, order: seq<Key>, id: string, n: nat) {
    && n < |order| && order[n].id == id && LastReceiver(s, order[n])
    && forall q | n < q < |order| && order[q].id == id :: !LastReceiver(s, order[q])
  }

  predicate CompletesNone(s: Service, order: seq<Key>, id: string) {
    forall q | 0 <= q < |order| && order[q].id == id :: !LastReceiver(s, order[q])
  }

  predicate SameRecord(s: Service, after: Service, id: string) {
    && (id in after.completed <==> id in s.completed)
    && (id in s.completed ==> after.completed[id] == s.completed[id])
  }

  /** The record ends at the last round that the call completed. */
  predicate RecordEnds(s: Service, after: Service, order: seq<Key>, id: string, last: Option<nat>) {
    match last
    case None => CompletesNone(s, order, id) && SameRecord(s, after, id)
    case Some(n) => CompletesLast(s, order, id, n) && id in after.completed && after.completed[id] == order[n].round
  }

  lemma {:induction false} LastCompleted(s: Service, order: seq<Key>, id: string) returns (last: Option<nat>)
    requires Releasable(s, order)
    ensures RecordEnds(s, ReleasedAll(s, order), order, id, last)
    decreases order
  {
    if order == [] {
      last := None;
    } else {
      assert forall k | k in order[1..] :: k in order && k != order[0];
      var later := LastCompleted(Released(s, order[0]), order[1..], id);
      last := OneMoreLeft(s, ReleasedAll(s, order), order, id, later);
    }
  }

  lemma OneMoreLeft(s: Service, after: Service, order: seq<Key>, id: string, later: Option<nat>)
    returns (last: Option<nat>)
    requires order != [] && Releasable(s, order) && RecordEnds(Released(s, order[0]), after, order[1..], id, later)
    ensures RecordEnds(s, after, order, id, last)
  {
    LaterSame(s, order);
    if later.Some? {
      last := Some(later.value + 1);
    } else if order[0].id == id && LastReceiver(s, order[0]) {
      last := Some(0);
    } else {
      last := None;
    }
  }

  lemma LaterSame(s: Service, order: seq<Key>)
    requires order != [] && Releasable(s, order)
    ensures forall q | 0 < q < |order| ::
              && order[1..][q - 1] == order[q]
              && (LastReceiver(Released(s, order[0]), order[q]) <==> LastReceiver(s, order[q]))
  {
  }

  /** Call c leaves these rounds, as the last one that it leaves of their layer or group if it is unary. */
  ghost predicate Leaves(cfg: Config, sys: Sys, c: CallId, order: seq<Key>) {
    && Core(cfg, sys) && c in sys.calls && CallTidy(sys, c)
    && Releasable(sys.svc, order) && (forall k | k in order :: k in sys.calls[c].remaining)
    && (sys.calls[c].unary ==> order == sys.calls[c].order && Permutes(order, sys.calls[c].remaining))
  }

  /** A round that call c leaves before it is completed by others has another receiver, or one of a rejected batch. */
  lemma AnotherHolder(cfg: Config, sys: Sys, c: CallId, k: Key) returns (e: CallId)
    requires Core(cfg, sys) && c in Holders(sys.calls, k) && k in sys.svc.rounds && Leaked(sys, k) == 0
    requires sys.svc.rounds[k].response.Some? && !LastReceiver(sys.svc, k)
    ensures e in Holders(sys.calls, k) && e != c
  {
    assert RoundSafe(cfg, sys, k);
    var others := Holders(sys.calls, k) - {c};
    assert Holders(sys.calls, k) == others + {c};
    assert others != {};
    e :| e in others;
  }

  lemma OneHolder(cfg: Config, sys: Sys, c: CallId, e: CallId, k: Key)
    requires Core(cfg, sys) && c in Holders(sys.calls, k) && LastReceiver(sys.svc, k) && e != c
    ensures e !in Holders(sys.calls, k)
  {
    if e in Holders(sys.calls, k) {
      TwoReceivers(cfg, sys, c, e, k);
    }
  }

  /** A round that comes after k1 and is not completed keeps k2 open. */
  lemma LaterKeepsOpen(cfg: Config, sys: Sys, c: CallId, order: seq<Key>, x: Key, k1: Key, k2: Key)
    requires Leaves(cfg, sys, c, order) && x in order && !LastReceiver(sys.svc, x) && k1 in order
    requires LastReceiver(sys.svc, k1) && !StaysOpen(sys, c, x, k1, k2)
    ensures k2 in ReleasedAll(sys.svc, order).rounds
  {
    var e := AnotherHolder(cfg, sys, c, x);
    OneHolder(cfg, sys, c, e, k1);
    assert !Guards(sys.calls[e], x, k1, k2);
    assert CallSafe(cfg, sys, e);
    GoneWhen(sys.svc, order, k2);
    if k2 in order && LastReceiver(sys.svc, k2) {
      OneHolder(cfg, sys, c, e, k2);
    }
  }

  lemma NotLeftLast(cfg: Config, sys: Sys, c: CallId, order: seq<Key>, n: nat, k2: Key)
    requires Leaves(cfg, sys, c, order) && n < |order| && CompletesLast(sys.svc, order, order[n].id, n)
    requires k2.id == order[n].id && !LeftLast(sys, c, order, order[n], k2)
    ensures k2 in ReleasedAll(sys.svc, order).rounds
  {
    var k1 := order[n];
    assert k1 in order;
    var p, q :| 0 <= p < q < |order| && order[p] == k1 && order[q].id == k1.id &&
      !(order[q] != k2 && StaysOpen(sys, c, order[q], k1, k2));
    assert order[q] in order;
    if order[q] == k2 {
      GoneWhen(sys.svc, order, k2);
    } else {
      LaterKeepsOpen(cfg, sys, c, order, order[q], k1, k2);
    }
  }

  /** What the Worker has sent and is gone when the call has left is not newer than the last round that it completed. */
  lemma NothingNewerGone(cfg: Config, sys: Sys, c: CallId, order: seq<Key>, n: nat, k2: Key)
    requires Leaves(cfg, sys, c, order) && n < |order| && CompletesLast(sys.svc, order, order[n].id, n)
    requires k2.id == order[n].id && k2 in Sent(sys, c.worker) && k2 !in ReleasedAll(sys.svc, order).rounds
    ensures k2.round <= order[n].round
  {
    assert order[n] in order;
    if order[n].round < k2.round {
      assert !OutOfPlace(sys, c, order[n], k2);
      NotLeftLast(cfg, sys, c, order, n, k2);
    }
  }

  lemma LeftClosed(cfg: Config, sys: Sys, after: Sys, c: CallId, order: seq<Key>, k: Key)
    requires Leaves(cfg, sys, c, order) && after.svc == ReleasedAll(sys.svc, order)
    requires Closed(cfg, sys, k) && k in Sent(sys, c.worker)
    ensures Closed(cfg, after, k)
  {
    ReleasedKeeps(sys.svc, order);
    if k !in after.svc.rounds {
      var last := LastCompleted(sys.svc, order, k.id);
      if last.Some? {
        NothingNewerGone(cfg, sys, c, order, last.value, k);
      } else if k in sys.svc.rounds {
        GoneWhen(sys.svc, order, k);
      }
    }
  }

  lemma CompletedAveraged(cfg: Config, sys: Sys, c: CallId, order: seq<Key>, k: Key)
    requires Leaves(cfg, sys, c, order) && k in order && LastReceiver(sys.svc, k)
    ensures Averaged(sys, k) && k !in ReleasedAll(sys.svc, order).rounds
  {
    assert RoundSafe(cfg, sys, k);
    assert Averaging(k, sys.svc.rounds[k].submissions) in sys.averagings;
    GoneWhen(sys.svc, order, k);
  }

  /** The record of a layer or group stays tidy, and does not decrease. */
  lemma LeftRecord(cfg: Config, sys: Sys, after: Sys, c: CallId, order: seq<Key>, id: string)
    requires Leaves(cfg, sys, c, order) && AveragedTidy(cfg, sys) && RecordsTidy(sys)
    requires after.svc == ReleasedAll(sys.svc, order) && after.averagings == sys.averagings
    ensures id in sys.svc.completed ==> id in after.svc.completed && sys.svc.completed[id] <= after.svc.completed[id]
    ensures id in after.svc.completed ==> RecordTidy(after, id)
  {
    ReleasedKeeps(sys.svc, order);
    assert id in sys.svc.completed ==> RecordTidy(sys, id);
    var last := LastCompleted(sys.svc, order, id);
    if last.Some? {
      assert order[last.value] in order;
      CompletedAveraged(cfg, sys, c, order, order[last.value]);
      if id in sys.svc.completed {
        var before := Key(id, sys.svc.completed[id]);
        AveragedSent(cfg, sys, c, before);
        NothingNewerGone(cfg, sys, c, order, last.value, before);
      }
    }
  }

  lemma AveragedSent(cfg: Config, sys: Sys, c: CallId, k: Key)
    requires Core(cfg, sys) && AveragedTidy(cfg, sys) && c in sys.calls && Averaged(sys, k)
    ensures k in Sent(sys, c.worker)
  {
    assert CallSafe(cfg, sys, c);
    var a :| a in sys.averagings && a.key == k;
    assert Closed(cfg, sys, a.key);
  }

  /** The state after call c has left these rounds: it is gone, or a streaming call that goes on with the others. */
  ghost predicate LeftBy(sys: Sys, after: Sys, c: CallId, order: seq<Key>)
    requires Releasable(sys.svc, order)
  {
    && after.svc == ReleasedAll(sys.svc, order)
    && after.leaked == sys.leaked && after.sent == sys.sent && after.averagings == sys.averagings
    && sys.calls.Keys - {c} <= after.calls.Keys <= sys.calls.Keys
    && (forall d | d in after.calls && d != c :: after.calls[d] == sys.calls[d])
    && (c in after.calls && c in sys.calls ==>
          && !after.calls[c].unary && !sys.calls[c].unary
          && after.calls[c].remaining == sys.calls[c].remaining - Named(order))
  }

  function Named(order: seq<Key>): set<Key> {
    set k | k in order
  }

  lemma HoldsSent(cfg: Config, sys: Sys, c: CallId)
    requires Core(cfg, sys) && RoundsSent(sys) && c in sys.calls
    ensures forall k | k in sys.calls[c].remaining :: k in sys.svc.rounds && k in Sent(sys, c.worker)
  {
    assert CallSafe(cfg, sys, c);
    forall k | k in sys.calls[c].remaining ensures k in Sent(sys, c.worker) {
      assert SubmittedSent(sys, k);
    }
  }

  lemma StreamsOneEach(cfg: Config, sys: Sys, c: CallId)
    requires Core(cfg, sys) && RoundsSent(sys) && c in sys.calls && CallTidy(sys, c) && !sys.calls[c].unary
    ensures OneRoundEach(sys.calls[c].remaining)
  {
    HoldsSent(cfg, sys, c);
    forall k, k2 | k in sys.calls[c].remaining && k2 in sys.calls[c].remaining && k.id == k2.id ensures k == k2 {
      assert !OutOfPlace(sys, c, k, k2) && !OutOfPlace(sys, c, k2, k);
    }
  }

  lemma HeldStays(cfg: Config, sys: Sys, after: Sys, c: CallId, order: seq<Key>, d: CallId, k: Key)
    requires Leaves(cfg, sys, c, order) && RoundsSent(sys) && LeftBy(sys, after, c, order)
    requires d in sys.calls && d != c && k in sys.calls[d].remaining
    ensures NoNewReceiver(sys, after, d, k)
  {
    assert CallSafe(cfg, sys, d);
    GoneWhen(sys.svc, order, k);
    if k in order && LastReceiver(sys.svc, k) {
      OneHolder(cfg, sys, c, d, k);
    }
    ReleasedKeeps(sys.svc, order);
    if c in after.calls {
      StreamsOneEach(cfg, sys, c);
      StreamKeeps(sys.calls[c].remaining, Named(order), k);
    }
  }

  lemma StreamKeeps(ks: set<Key>, gone: set<Key>, k: Key)
    requires OneRoundEach(ks)
    ensures k in ks - gone ==> SameOfId(ks, ks - gone, k.id)
  {
  }

  lemma OtherCallTidy(cfg: Config, sys: Sys, after: Sys, c: CallId, order: seq<Key>, d: CallId)
    requires Leaves(cfg, sys, c, order) && RoundsSent(sys) && LeftBy(sys, after, c, order)
    requires d in after.calls && d != c && CallTidy(sys, d) && UnaryIntact(sys)
    ensures CallTidy(after, d)
  {
    forall k | k in sys.calls[d].remaining ensures NoNewReceiver(sys, after, d, k) {
      HeldStays(cfg, sys, after, c, order, d, k);
    }
    StaysTidy(sys, after, d);
  }

  lemma StreamTidy(sys: Sys, after: Sys, c: CallId, order: seq<Key>)
    requires Releasable(sys.svc, order) && LeftBy(sys, after, c, order)
    requires c in sys.calls && c in after.calls && CallTidy(sys, c)
    ensures CallTidy(after, c)
  {
    forall k1, k2 ensures !OutOfPlace(after, c, k1, k2) {
      assert !OutOfPlace(sys, c, k1, k2);
    }
  }

  lemma LeftTidy(cfg: Config, sys: Sys, after: Sys, c: CallId, order: seq<Key>)
    requires Leaves(cfg, sys, c, order) && UnaryIntact(sys) && Tidy(cfg, sys) && LeftBy(sys, after, c, order)
    ensures Tidy(cfg, after) && CompletedGrows(sys.svc, after.svc)
  {
    forall d | d in after.calls ensures CallTidy(after, d) {
      assert CallTidy(sys, d);
      if d == c {
        StreamTidy(sys, after, c, order);
      } else {
        OtherCallTidy(cfg, sys, after, c, order, d);
      }
    }
    ReleasedKeeps(sys.svc, order);
    forall k | k in after.svc.rounds ensures SubmittedSent(after, k) {
      assert SubmittedSent(sys, k);
    }
    assert CallSafe(cfg, sys, c);
    forall a | a in after.averagings ensures Closed(cfg, after, a.key) && SentByAll(cfg, after, a.key) {
      assert Closed(cfg, sys, a.key) && SentByAll(cfg, sys, a.key);
      LeftClosed(cfg, sys, after, c, order, a.key);
    }
    forall id ensures id in after.svc.completed ==> RecordTidy(after, id)
      ensures id in sys.svc.completed ==> id in after.svc.completed && sys.svc.completed[id] <= after.svc.completed[id]
    {
      LeftRecord(cfg, sys, after, c, order, id);
    }
  }

  lemma LeaversTidy(cfg: Config, sys: Sys, c: CallId, order: seq<Key>)
    requires Safe(cfg, sys) && Tidy(cfg, sys) && c in sys.calls
    requires Permutes(order, sys.calls[c].remaining) && sys.calls[c].remaining <= sys.svc.rounds.Keys
    requires sys.calls[c].unary ==> order == sys.calls[c].order
    ensures Tidy(cfg, Gone(LeftAll(sys, c, order), c))
    ensures CompletedGrows(sys.svc, Gone(LeftAll(sys, c, order), c).svc)
  {
    assert CallTidy(sys, c);
    LeftAllIs(sys, c, order);
    LeftTidy(cfg, sys, Gone(LeftAll(sys, c, order), c), c, order);
  }

  lemma ReturnTidy(cfg: Config, sys: Sys, c: CallId)
    requires Safe(cfg, sys) && Tidy(cfg, sys) && Enabled(cfg, sys, Return(c))
    ensures Tidy(cfg, Next(cfg, sys, Return(c)))
    ensures CompletedGrows(sys.svc, Next(cfg, sys, Return(c)).svc)
  {
    var order := sys.calls[c].order;
    var gone := Gone(LeftAll(sys, c, order), c);
    LeaversTidy(cfg, sys, c, order);
    AllGoneSafe(cfg, sys, c, order);
    SameTidy(cfg, gone, Next(cfg, sys, Return(c)));
  }

  lemma EmitTidy(cfg: Config, sys: Sys, c: CallId, k: Key)
    requires Safe(cfg, sys) && Tidy(cfg, sys) && Enabled(cfg, sys, Emit(c, k))
    ensures Tidy(cfg, Next(cfg, sys, Emit(c, k)))
    ensures CompletedGrows(sys.svc, Next(cfg, sys, Emit(c, k)).svc)
  {
    assert CallTidy(sys, c);
    ReleasedOne(sys.svc, k);
    LeftTidy(cfg, sys, Next(cfg, sys, Emit(c, k)), c, [k]);
  }

  // ---------- opening ----------

  /** A round that has its response is not in an accepted batch. */
  lemma AnsweredNotAccepted(cfg: Config, sys: Sys, w: Worker, rs: seq<Request>, k: Key)
    requires Core(cfg, sys) && w in cfg.workers && AcceptedUpTo(cfg, sys.svc, w, rs, |rs|)
    requires k in sys.svc.rounds && sys.svc.rounds[k].response.Some?
    ensures k !in Keys(rs)
  {
    assert RoundSafe(cfg, sys, k);
    if k in Keys(rs) {
      assert rs[..|rs|] == rs;
      AcceptedKey(cfg, sys.svc, w, rs, |rs|, k);
    }
  }

  lemma AdmittedNoReceiver(cfg: Config, sys: Sys, c: CallId, unary: bool, rs: seq<Request>, d: CallId, k: Key)
    requires Core(cfg, sys) && c.worker in cfg.workers && c !in sys.calls
    requires AcceptedUpTo(cfg, sys.svc, c.worker, rs, |rs|)
    requires d in sys.calls && k in sys.calls[d].remaining
    ensures NoNewReceiver(sys, Admitted(cfg, sys, c, unary, rs), d, k)
  {
    assert CallSafe(cfg, sys, d);
    if sys.svc.rounds[k].response.Some? {
      AnsweredNotAccepted(cfg, sys, c.worker, rs, k);
    }
  }

  lemma AdmittedOthersTidy(cfg: Config, sys: Sys, c: CallId, unary: bool, rs: seq<Request>, d: CallId)
    requires Safe(cfg, sys) && c.worker in cfg.workers && c !in sys.calls && !SecondCall(sys, c, rs)
    requires AcceptedUpTo(cfg, sys.svc, c.worker, rs, |rs|)
    requires d in sys.calls && CallTidy(sys, d)
    ensures CallTidy(Admitted(cfg, sys, c, unary, rs), d)
  {
    var after := Admitted(cfg, sys, c, unary, rs);
    forall k | k in sys.calls[d].remaining ensures NoNewReceiver(sys, after, d, k) {
      AdmittedNoReceiver(cfg, sys, c, unary, rs, d, k);
    }
    SharesNothing(sys, after, c, rs, d);
    StaysTidy(sys, after, d);
  }

  lemma SharesNothing(sys: Sys, after: Sys, c: CallId, rs: seq<Request>, d: CallId)
    requires d in sys.calls && !SecondCall(sys, c, rs)
    requires Sent(after, c.worker) == Sent(sys, c.worker) + Keys(rs)
    requires d.worker != c.worker ==> Sent(after, d.worker) == Sent(sys, d.worker)
    ensures SendsOthers(sys, after, d)
  {
    forall h, k | h in sys.calls[d].remaining && k in Sent(after, d.worker) && h.id == k.id
      ensures k in Sent(sys, d.worker)
    {
      NotShared(sys, c, rs, d, h, k);
    }
  }

  lemma NotShared(sys: Sys, c: CallId, rs: seq<Request>, d: CallId, h: Key, k: Key)
    requires d in sys.calls && !SecondCall(sys, c, rs) && h in sys.calls[d].remaining && h.id == k.id
    ensures d.worker != c.worker || k !in Keys(rs)
  {
    assert !Shares(sys, c, rs, d, h, k);
  }

  lemma AdmittedTidyCall(cfg: Config, sys: Sys, c: CallId, unary: bool, rs: seq<Request>)
    requires c !in sys.calls && !LeavesOlder(cfg, sys, c, unary, rs)
    ensures CallTidy(Admitted(cfg, sys, c, unary, rs), c)
  {
    var after := Admitted(cfg, sys, c, unary, rs);
    forall k1, k2 | OutOfPlace(after, c, k1, k2) ensures false {
      assert Behind(cfg, sys, c, unary, rs, k1, k2);
    }
  }

  lemma AdmittedCallsTidy(cfg: Config, sys: Sys, c: CallId, unary: bool, rs: seq<Request>)
    requires Safe(cfg, sys) && c.worker in cfg.workers && c !in sys.calls && CallsTidy(sys)
    requires AcceptedUpTo(cfg, sys.svc, c.worker, rs, |rs|)
    requires !SecondCall(sys, c, rs) && !LeavesOlder(cfg, sys, c, unary, rs)
    ensures CallsTidy(Admitted(cfg, sys, c, unary, rs))
  {
    AdmittedTidyCall(cfg, sys, c, unary, rs);
    forall d | d in sys.calls ensures CallTidy(Admitted(cfg, sys, c, unary, rs), d) {
      assert CallTidy(sys, d);
      AdmittedOthersTidy(cfg, sys, c, unary, rs, d);
    }
  }

  lemma FullySent(cfg: Config, sys: Sys, k: Key)
    requires RoundsSent(sys) && k in sys.svc.rounds && sys.svc.rounds[k].submissions.Keys == cfg.workers
    ensures SentByAll(cfg, sys, k)
  {
    assert SubmittedSent(sys, k);
  }

  lemma NewAveragingsTidy(cfg: Config, sys: Sys, c: CallId, unary: bool, rs: seq<Request>)
    requires Core(cfg, sys) && RoundsSent(sys) && c.worker in cfg.workers
    requires AcceptedUpTo(cfg, sys.svc, c.worker, rs, |rs|)
    ensures var after := Admitted(cfg, sys, c, unary, rs);
            forall a | a in NewAveragings(cfg, Inserted(sys.svc, c.worker, rs), rs) ::
              Closed(cfg, after, a.key) && SentByAll(cfg, after, a.key)
  {
    var inserted := Inserted(sys.svc, c.worker, rs);
    var after := Admitted(cfg, sys, c, unary, rs);
    AdmittedSent(cfg, sys, c, unary, rs);
    AdmittedClosed(cfg, sys, c, unary, rs);
    NewAveragingsAre(cfg, inserted, rs);
    forall a | a in NewAveragings(cfg, inserted, rs) ensures SentByAll(cfg, after, a.key) {
      assert Closed(cfg, after, a.key);
      FullySent(cfg, after, a.key);
    }
  }

  lemma OldAveragingTidy(cfg: Config, sys: Sys, c: CallId, unary: bool, rs: seq<Request>, k: Key)
    requires c.worker in cfg.workers && AcceptedUpTo(cfg, sys.svc, c.worker, rs, |rs|)
    requires Closed(cfg, sys, k) && SentByAll(cfg, sys, k)
    ensures var after := Admitted(cfg, sys, c, unary, rs);
            Closed(cfg, after, k) && SentByAll(cfg, after, k) && k !in Keys(rs)
  {
    ClosedNotAccepted(cfg, sys, c.worker, rs, k);
    AdmittedKeepsClosed(cfg, sys, c, unary, rs, k);
  }

  lemma AdmittedTidy(cfg: Config, sys: Sys, c: CallId, unary: bool, rs: seq<Request>)
    requires Safe(cfg, sys) && Tidy(cfg, sys) && c.worker in cfg.workers && c !in sys.calls
    requires AcceptedUpTo(cfg, sys.svc, c.worker, rs, |rs|)
    requires !SecondCall(sys, c, rs) && !LeavesOlder(cfg, sys, c, unary, rs)
    ensures Tidy(cfg, Admitted(cfg, sys, c, unary, rs))
  {
    var after := Admitted(cfg, sys, c, unary, rs);
    AdmittedCallsTidy(cfg, sys, c, unary, rs);
    AdmittedSent(cfg, sys, c, unary, rs);
    NewAveragingsTidy(cfg, sys, c, unary, rs);
    forall a | a in sys.averagings
      ensures Closed(cfg, after, a.key) && SentByAll(cfg, after, a.key) && a.key !in Keys(rs)
    {
      assert Closed(cfg, sys, a.key);
      OldAveragingTidy(cfg, sys, c, unary, rs, a.key);
    }
    AdmittedOnce(cfg, sys, c.worker, rs);
    AcceptedFresh(cfg, sys.svc, c.worker, rs);
    SameRecords(sys, after);
  }

  /** A batch that is turned away leaves receivers that nobody can take away, but only in rounds without response. */
  lemma TurnedAwayNoReceiver(cfg: Config, sys: Sys, w: Worker, rs: seq<Request>, d: CallId, k: Key)
    requires Core(cfg, sys) && w in cfg.workers && AcceptedUpTo(cfg, sys.svc, w, rs, |rs|)
    requires d in sys.calls && k in sys.calls[d].remaining
    ensures NoNewReceiver(sys, TurnedAway(sys, w, rs), d, k)
  {
    assert CallSafe(cfg, sys, d);
    if sys.svc.rounds[k].response.Some? {
      AnsweredNotAccepted(cfg, sys, w, rs, k);
    }
  }

  lemma TurnedAwayCallsTidy(cfg: Config, sys: Sys, c: CallId, rs: seq<Request>)
    requires Safe(cfg, sys) && CallsTidy(sys) && c.worker in cfg.workers && !SecondCall(sys, c, rs)
    requires AcceptedUpTo(cfg, sys.svc, c.worker, rs, |rs|)
    ensures CallsTidy(TurnedAway(sys, c.worker, rs))
  {
    var after := TurnedAway(sys, c.worker, rs);
    forall d | d in after.calls ensures CallTidy(after, d) {
      assert CallTidy(sys, d);
      forall k | k in sys.calls[d].remaining ensures NoNewReceiver(sys, after, d, k) {
        TurnedAwayNoReceiver(cfg, sys, c.worker, rs, d, k);
      }
      SharesNothing(sys, after, c, rs, d);
      StaysTidy(sys, after, d);
    }
  }

  lemma TurnedAwayTidy(cfg: Config, sys: Sys, c: CallId, rs: seq<Request>)
    requires Safe(cfg, sys) && Tidy(cfg, sys) && c.worker in cfg.workers && !SecondCall(sys, c, rs)
    requires AcceptedUpTo(cfg, sys.svc, c.worker, rs, |rs|)
    ensures Tidy(cfg, TurnedAway(sys, c.worker, rs))
  {
    var after := TurnedAway(sys, c.worker, rs);
    TurnedAwayCallsTidy(cfg, sys, c, rs);
    InsertedSent(cfg, sys, after, c.worker, rs);
    InsertedClosed(cfg, sys, after, c.worker, rs);
    forall a | a in sys.averagings ensures SentByAll(cfg, after, a.key) {
      assert Closed(cfg, sys, a.key);
    }
    AcceptedFresh(cfg, sys.svc, c.worker, rs);
    SameRecords(sys, after);
  }

  lemma PrefixSharesOne(sys: Sys, c: CallId, rs: seq<Request>, n: nat, d: CallId, h: Key, k: Key)
    requires n <= |rs| && d in sys.calls && Shares(sys, c, rs[..n], d, h, k)
    ensures Shares(sys, c, rs, d, h, k)
  {
    var r :| r in rs[..n] && r.key == k;
    assert r in rs;
  }

  lemma PrefixShares(sys: Sys, c: CallId, rs: seq<Request>, n: nat)
    requires n <= |rs| && !SecondCall(sys, c, rs)
    ensures !SecondCall(sys, c, rs[..n])
  {
    forall d, h, k | d in sys.calls && Shares(sys, c, rs[..n], d, h, k) ensures Shares(sys, c, rs, d, h, k) {
      PrefixSharesOne(sys, c, rs, n, d, h, k);
    }
  }

  lemma OpenedTidy(cfg: Config, sys: Sys, c: CallId, unary: bool, rs: seq<Request>)
    requires Safe(cfg, sys) && Tidy(cfg, sys) && c.worker in cfg.workers && c !in sys.calls
    requires Harmless(cfg, sys, c, unary, rs)
    ensures Tidy(cfg, Opened(cfg, sys, c, unary, rs))
    ensures Opened(cfg, sys, c, unary, rs).svc.completed == sys.svc.completed
  {
    var n := Accepted(cfg, sys.svc, c.worker, rs);
    if n == |rs| {
      AdmittedTidy(cfg, sys, c, unary, rs);
    } else {
      AcceptedPrefix(cfg, sys.svc, c.worker, rs, n);
      PrefixShares(sys, c, rs, n);
      TurnedAwayTidy(cfg, sys, c, rs[..n]);
    }
  }

  // ---------- whole runs ----------

  lemma AbortTidy(cfg: Config, sys: Sys, reason: string)
    requires Safe(cfg, sys) && Busy(sys) && Tidy(cfg, sys)
    ensures Tidy(cfg, Next(cfg, sys, Abort(reason)))
    ensures HasReceivers(sys.svc) ==> CompletedGrows(sys.svc, Next(cfg, sys, Abort(reason)).svc)
  {
    if HasReceivers(sys.svc) {
      SameTidy(cfg, sys, Next(cfg, sys, Abort(reason)));
    } else {
      forall c | c in sys.calls ensures false {
        HeldHasReceivers(cfg, sys, c);
      }
    }
  }

  lemma NextTidy(cfg: Config, sys: Sys, step: Step)
    requires Safe(cfg, sys) && Busy(sys) && Tidy(cfg, sys)
    requires Enabled(cfg, sys, step) && StepHarmless(cfg, sys, step)
    ensures Tidy(cfg, Next(cfg, sys, step))
    ensures KeepsMaps(sys, step) ==> CompletedGrows(sys.svc, Next(cfg, sys, step).svc)
  {
    match step
    case Open(c, unary, rs) => OpenedTidy(cfg, sys, c, unary, rs);
    case Return(c) => ReturnTidy(cfg, sys, c);
    case Emit(c, k) => EmitTidy(cfg, sys, c, k);
    case Quit(c, order) => LeaversTidy(cfg, sys, c, order);
    case Sleep(c) => SameTidy(cfg, sys, Next(cfg, sys, step));
    case Abort(reason) => AbortTidy(cfg, sys, reason);
  }

  /** In every run of harmless batches: what the barrier keeps, and between map resets the latest completed round of a
      layer or group never moves back. */
  lemma {:induction false} RunTidy(cfg: Config, sys: Sys, steps: seq<Step>)
    requires Safe(cfg, sys) && Busy(sys) && Tidy(cfg, sys)
    requires ValidRun(cfg, sys, steps) && HarmlessRun(cfg, sys, steps)
    ensures var after := After(cfg, sys, steps); Safe(cfg, after) && Busy(after) && Tidy(cfg, after)
    ensures MapsKept(cfg, sys, steps) ==> CompletedGrows(sys.svc, After(cfg, sys, steps).svc)
    decreases steps
  {
    if steps != [] {
      NextSafe(cfg, sys, steps[0]);
      NextBusy(cfg, sys, steps[0]);
      NextTidy(cfg, sys, steps[0]);
      RunTidy(cfg, Next(cfg, sys, steps[0]), steps[1..]);
    }
  }

  // ---------- the stricter order ----------

  lemma NotIncreasing(sys: Sys, c: CallId, order: seq<Key>, k1: Key, k2: Key)
    requires LeftLast(sys, c, order, k1, k2) && k2 in order && k1.id == k2.id && k1.round < k2.round
    ensures !Increases(order)
  {
    var p :| 0 <= p < |order| && order[p] == k1;
    var q :| 0 <= q < |order| && order[q] == k2;
    assert q < p;
  }

  lemma AcceptedOrder(cfg: Config, s: Service, w: Worker, rs: seq<Request>)
    requires Accepted(cfg, s, w, rs) == |rs|
    ensures AcceptedUpTo(cfg, s, w, rs, |rs|) && Permutes(Order(rs), Keys(rs))
  {
    assert rs[..|rs|] == rs;
    AcceptedDistinct(cfg, s, w, rs, |rs|);
    OrderPermutes(rs);
  }

  /** A batch that keeps the stricter order is harmless. */
  lemma DisciplinedHarmless(cfg: Config, sys: Sys, c: CallId, unary: bool, rs: seq<Request>)
    requires Disciplined(sys, c, unary, rs)
    ensures Harmless(cfg, sys, c, unary, rs)
  {
    if Accepted(cfg, sys.svc, c.worker, rs) == |rs| {
      AcceptedOrder(cfg, sys.svc, c.worker, rs);
      forall k1, k2 | Behind(cfg, sys, c, unary, rs, k1, k2) ensures false {
        if unary && k2 in Keys(rs) {
          NotIncreasing(Admitted(cfg, sys, c, unary, rs), c, Order(rs), k1, k2);
        }
      }
    }
  }

  lemma {:induction false} DisciplinedRunHarmless(cfg: Config, sys: Sys, steps: seq<Step>)
    requires ValidRun(cfg, sys, steps) && DisciplinedRun(cfg, sys, steps)
    ensures HarmlessRun(cfg, sys, steps)
    decreases steps
  {
    if steps != [] {
      var step := steps[0];
      if step.Open? {
        DisciplinedHarmless(cfg, sys, step.c, step.unary, step.rs);
      }
      DisciplinedRunHarmless(cfg, Next(cfg, sys, step), steps[1..]);
    }
  }

  lemma GoneNotNewer(cfg: Config, sys: Sys, k: Key)
    requires AveragedTidy(cfg, sys) && Averaged(sys, k) && k !in sys.svc.rounds
    ensures k.id in sys.svc.completed && k.round <= sys.svc.completed[k.id]
  {
    var a :| a in sys.averagings && a.key == k;
    assert Closed(cfg, sys, a.key);
  }

  /** In every run of harmless batches from an empty service, between map resets: no key is averaged twice,
      callers get the same response for the same key, and the record has got as far as every averaged key that is
      gone. */
  lemma HarmlessOnce(cfg: Config, steps: seq<Step>)
    requires ValidRun(cfg, INIT, steps) && HarmlessRun(cfg, INIT, steps)
    ensures var sys := After(cfg, INIT, steps);
            && Once(sys.averagings) && OneAnswer(cfg, sys)
            && (forall a | a in sys.averagings && a.key !in sys.svc.rounds ::
                  a.key.id in sys.svc.completed && a.key.round <= sys.svc.completed[a.key.id])
  {
    RunTidy(cfg, INIT, steps);
    var sys := After(cfg, INIT, steps);
    AnswersAgree(cfg, sys);
    forall a | a in sys.averagings && a.key !in sys.svc.rounds
      ensures a.key.id in sys.svc.completed && a.key.round <= sys.svc.completed[a.key.id]
    {
      GoneNotNewer(cfg, sys, a.key);
    }
  }

  /** A tidy state cannot be continued in order to one in which the record is behind an averaged key. */
  lemma TidyNeverBack(cfg: Config, sys: Sys, k1: Key, k2: Key, back: seq<Step>, older: Sys)
    requires Safe(cfg, sys) && Busy(sys) && Tidy(cfg, sys)
    ensures !GoesBack(cfg, true, sys, k1, k2, back, older)
  {
    if GoesBack(cfg, true, sys, k1, k2, back, older) {
      ReachesIs(cfg, true, sys, back, older);
      DisciplinedRunHarmless(cfg, sys, back);
      RunTidy(cfg, sys, back);
      GoneNotNewer(cfg, older, k2);
    }
  }
}
