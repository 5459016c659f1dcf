/** A call that leaves an older round of a layer or group after a newer one, and leaves it as the last receiver: the
    record of the latest completed round ends at the older one, although the newer key was averaged and completed. The
    run that shows it can keep the order, so that the call is the only one that breaks it. */
module KeyedOvertaken {
  import opened Wrappers
  import opened Gradients
  import opened KeyedRounds
  import opened KeyedRuns
  import opened KeyedOrder
  import opened KeyedBackwards

  /** Another call holds k and neither k1 nor k2. */
  ghost predicate Guarded(sys: Sys, f: CallId, k: Key, k1: Key, k2: Key) {
    exists e :: e in sys.calls && Guards(sys.calls[e], k, k1, k2) && e != f
  }

  predicate Guards(call: Call, k: Key, k1: Key, k2: Key) {
    k in call.remaining && k1 !in call.remaining && k2 !in call.remaining
  }

  /** After k1, call f leaves neither k2 nor a round of the same layer or group that has a response, unless that round
      has a receiver of a rejected batch or another call can hold it for longer. */
  ghost predicate LeftLast(sys: Sys, f: CallId, order: seq<Key>, k1: Key, k2: Key) {
    && k1 in order
    && forall p, q | 0 <= p < q < |order| && order[p] == k1 && order[q].id == k1.id ::
         order[q] != k2 && StaysOpen(sys, f, order[q], k1, k2)
  }

  ghost predicate StaysOpen(sys: Sys, f: CallId, k: Key, k1: Key, k2: Key) {
    && k in sys.svc.rounds
    && (sys.svc.rounds[k].response.None? || Leaked(sys, k) > 0 || Guarded(sys, f, k, k1, k2))
  }

  // ---------- what leaving does to one layer or group ----------

  /** One receiver can leave round k without completing it. */
  predicate Outlasts(s: Service, k: Key) {
    k in s.rounds && (s.rounds[k].response.None? || s.rounds[k].waiting > 1)
  }

  /** After k1 comes neither k2 nor a round of the same layer or group that is completed by leaving it. */
  ghost predicate CompletedLast(s: Service, order: seq<Key>, k1: Key, k2: Key) {
    && k1 in order
    && forall p, q | 0 <= p < q < |order| && order[p] == k1 && order[q].id == k1.id ::
         order[q] != k2 && Outlasts(s, order[q])
  }

  predicate LastReceiver(s: Service, k: Key) {
    k in s.rounds && s.rounds[k].waiting == 1 && s.rounds[k].response.Some?
  }

  /** Round k is gone, or it has a response and a receiver. */
  predicate GoneOrHeld(s: Service, k: Key) {
    k in s.rounds ==> s.rounds[k].waiting > 0 && s.rounds[k].response.Some?
  }

  lemma {:induction false} OutlastingLeft(s: Service, order: seq<Key>, id: string)
    requires Releasable(s, order) && forall k | k in order && k.id == id :: Outlasts(s, k)
    ensures var after := ReleasedAll(s, order);
            && (id in after.completed <==> id in s.completed)
            && (id in s.completed ==> after.completed[id] == s.completed[id])
            && (forall k: Key | k.id == id :: k in after.rounds <==> k in s.rounds)
    decreases order
  {
    if order != [] {
      assert forall k | k in order[1..] :: k in order && k != order[0];
      OutlastingLeft(Released(s, order[0]), order[1..], id);
    }
  }

  lemma {:induction false} ReleasedHeld(s: Service, order: seq<Key>, k: Key)
    requires Releasable(s, order) && GoneOrHeld(s, k)
    ensures GoneOrHeld(ReleasedAll(s, order), k)
    decreases order
  {
    if order != [] {
      assert forall k2 | k2 in order[1..] :: k2 in order && k2 != order[0];
      ReleasedHeld(Released(s, order[0]), order[1..], k);
    }
  }

  lemma LastLeft(s: Service, order: seq<Key>, k1: Key, k2: Key)
    requires order != [] && Releasable(s, order) && CompletedLast(s, order, k1, k2) && LastReceiver(s, k1)
    requires order[0] == k1 && k2.id == k1.id && k2 != k1 && (k2 in s.rounds ==> k2 in order)
    ensures var after := ReleasedAll(s, order);
            k1.id in after.completed && after.completed[k1.id] == k1.round && k2 !in after.rounds
  {
    assert forall k | k in order[1..] :: k in order && k != order[0];
    forall k | k in order[1..] && k.id == k1.id ensures k != k2 && Outlasts(s, k) {
      var q :| 0 <= q < |order[1..]| && order[1..][q] == k;
      assert order[q + 1] == k;
    }
    assert forall k | k in order :: k == order[0] || k in order[1..];
    OutlastingLeft(Released(s, k1), order[1..], k1.id);
  }

  /** The record ends at k1, and k2 is gone. */
  lemma {:induction false} ReleasedLast(s: Service, order: seq<Key>, k1: Key, k2: Key)
    requires Releasable(s, order) && CompletedLast(s, order, k1, k2) && LastReceiver(s, k1)
    requires k2.id == k1.id && k2 != k1 && (k2 in s.rounds ==> k2 in order && LastReceiver(s, k2))
    ensures var after := ReleasedAll(s, order);
            k1.id in after.completed && after.completed[k1.id] == k1.round && k2 !in after.rounds
    decreases order
  {
    if order[0] == k1 {
      LastLeft(s, order, k1, k2);
    } else {
      assert forall k | k in order[1..] :: k in order && k != order[0];
      assert forall k | k in order :: k == order[0] || k in order[1..];
      RestCompletedLast(s, order, k1, k2);
      ReleasedLast(Released(s, order[0]), order[1..], k1, k2);
    }
  }

  lemma RestCompletedLast(s: Service, order: seq<Key>, k1: Key, k2: Key)
    requires Releasable(s, order) && CompletedLast(s, order, k1, k2) && order[0] != k1
    ensures CompletedLast(Released(s, order[0]), order[1..], k1, k2)
  {
    var rest := order[1..];
    var i :| 0 <= i < |order| && order[i] == k1;
    assert rest[i - 1] == k1;
    forall p, q | 0 <= p < q < |rest| && rest[p] == k1 && rest[q].id == k1.id
      ensures rest[q] != k2 && Outlasts(Released(s, order[0]), rest[q])
    {
      assert order[p + 1] == k1 && order[q + 1] == rest[q] && order[0] != order[q + 1];
    }
  }

  // ---------- the older round is answered, and those who answered it leave ----------

  /** Nothing but the receivers of round k has changed. */
  ghost predicate Shed(a: Sys, b: Sys, k: Key) {
    && b.svc.completed == a.svc.completed && b.svc.rounds.Keys == a.svc.rounds.Keys
    && (forall k2 | k2 in a.svc.rounds && k2 != k :: b.svc.rounds[k2] == a.svc.rounds[k2])
    && k in a.svc.rounds && b.svc.rounds[k].response == a.svc.rounds[k].response
    && b.leaked == a.leaked && b.averagings == a.averagings && b.sent == a.sent
  }

  predicate HoldsOnly(sys: Sys, d: CallId, k: Key) {
    d in sys.calls && SameRounds(sys.calls[d], Call(true, [k], {k}, false))
  }

  lemma TwoReceivers(cfg: Config, sys: Sys, f: CallId, d: CallId, k: Key)
    requires Core(cfg, sys) && k in sys.svc.rounds && f != d
    requires f in Holders(sys.calls, k) && d in Holders(sys.calls, k)
    ensures sys.svc.rounds[k].waiting > 1
  {
    assert RoundSafe(cfg, sys, k);
    var others := Holders(sys.calls, k) - {f};
    assert d in others && Holders(sys.calls, k) == others + {f};
  }

  lemma ReleasedOne(s: Service, k: Key)
    requires k in s.rounds
    ensures Releasable(s, [k]) && ReleasedAll(s, [k]) == Released(s, k)
  {
    assert [k][1..] == [];
    assert ReleasedAll(Released(s, k), [k][1..]) == Released(s, k);
  }

  /** A call that holds round k alone returns while call f holds it too. */
  lemma OneReturns(cfg: Config, orderly: bool, sys: Sys, f: CallId, d: CallId, k: Key)
    returns (steps: seq<Step>, after: Sys)
    requires Safe(cfg, sys) && Busy(sys) && NoneAsleep(sys) && f in Holders(sys.calls, k)
    requires HoldsOnly(sys, d, k) && d != f && k in sys.svc.rounds && sys.svc.rounds[k].response.Some?
    ensures Reaches(cfg, orderly, sys, steps, after) && Safe(cfg, after) && Busy(after)
    ensures after.calls == sys.calls - {d} && Shed(sys, after, k)
  {
    var step := Return(d);
    ReleasedOne(sys.svc, k);
    TwoReceivers(cfg, sys, f, d, k);
    ReturnLeaves(cfg, sys, d);
    OneStep(cfg, orderly, sys, step);
    NextSafe(cfg, sys, step);
    NextBusy(cfg, sys, step);
    steps, after := [step], Next(cfg, sys, step);
  }

  /** Call f holds round k, which has a response, and these other calls hold it alone. */
  ghost predicate CanReturn(sys: Sys, f: CallId, ds: set<CallId>, k: Key) {
    && NoneAsleep(sys) && f in Holders(sys.calls, k) && k in sys.svc.rounds && sys.svc.rounds[k].response.Some?
    && forall d | d in ds :: HoldsOnly(sys, d, k) && d != f
  }

  lemma OthersCanReturn(sys: Sys, mid: Sys, f: CallId, ds: set<CallId>, d: CallId, k: Key)
    requires CanReturn(sys, f, ds, k) && d in ds && mid.calls == sys.calls - {d} && Shed(sys, mid, k)
    ensures CanReturn(mid, f, ds - {d}, k)
  {
  }

  lemma {:induction false} AllReturn(cfg: Config, orderly: bool, sys: Sys, f: CallId, ds: set<CallId>, k: Key)
    returns (steps: seq<Step>, after: Sys)
    requires Safe(cfg, sys) && Busy(sys) && CanReturn(sys, f, ds, k)
    ensures Reaches(cfg, orderly, sys, steps, after) && Safe(cfg, after) && Busy(after)
    ensures after.calls == sys.calls - ds && Shed(sys, after, k)
    decreases |ds|
  {
    if ds == {} {
      steps, after := [], sys;
      NoStep(cfg, orderly, sys);
      NoneRemoved(sys.calls, ds);
    } else {
      var d :| d in ds;
      var first, mid := OneReturns(cfg, orderly, sys, f, d, k);
      OthersCanReturn(sys, mid, f, ds, d, k);
      var more;
      more, after := AllReturn(cfg, orderly, mid, f, ds - {d}, k);
      Then(cfg, orderly, sys, first, mid, more, after);
      steps := first + more;
      ShedTwice(sys, mid, after, k);
      OneRemoved(sys.calls, d, ds);
    }
  }

  lemma ShedTwice(a: Sys, b: Sys, c: Sys, k: Key)
    requires Shed(a, b, k) && Shed(b, c, k)
    ensures Shed(a, c, k)
  {
  }

  lemma NoneRemoved<K, V>(m: map<K, V>, ks: set<K>)
    requires ks == {}
    ensures m - ks == m
  {
    assert (m - ks).Keys == m.Keys;
  }

  lemma OneRemoved<K, V>(m: map<K, V>, k: K, ks: set<K>)
    requires k in ks
    ensures m - {k} - (ks - {k}) == m - ks
  {
    assert (m - {k} - (ks - {k})).Keys == (m - ks).Keys;
  }

  /** What answering round k, with nobody else entering or leaving in the end, leaves as it was. */
  ghost predicate AnsweredAlone(a: Sys, b: Sys, k: Key) {
    && GrownService(a, b, k)
    && b.calls.Keys == a.calls.Keys && (forall d | d in a.calls :: SameRounds(b.calls[d], a.calls[d]))
    && (forall w :: Sent(b, w) <= Sent(a, w) + {k})
  }

  lemma AnswersAlone(cfg: Config, orderly: bool, sys: Sys, f: CallId, k: Key, g: Group)
    returns (steps: seq<Step>, after: Sys)
    requires Safe(cfg, sys) && Busy(sys) && cfg.wellFormed(g) && Answerable(cfg, sys, k, g) && f in Holders(sys.calls, k)
    requires orderly ==> MissingMaySend(cfg, sys, k)
    ensures Reaches(cfg, orderly, sys, steps, after) && Safe(cfg, after) && Busy(after)
    ensures AnsweredAlone(sys, after, k) && Answered(after, k)
  {
    assert RoundSafe(cfg, sys, k);
    if sys.svc.rounds[k].response.Some? {
      NoStep(cfg, orderly, sys);
      steps, after := [], sys;
    } else {
      var first, mid := FillRound(cfg, orderly, sys, k, g);
      var ds := mid.calls.Keys - sys.calls.Keys;
      assert f in Holders(mid.calls, k);
      var more;
      more, after := AllReturn(cfg, orderly, mid, f, ds, k);
      Then(cfg, orderly, sys, first, mid, more, after);
      steps := first + more;
      GrownThenShed(sys, mid, after, k);
      assert f in Holders(after.calls, k);
    }
  }

  lemma GrownThenShed(a: Sys, b: Sys, c: Sys, k: Key)
    requires Grown(a, b, k) && Shed(b, c, k) && c.calls == b.calls - (b.calls.Keys - a.calls.Keys)
    ensures AnsweredAlone(a, c, k)
  {
  }

  // ---------- both rounds are answered ----------

  lemma StillAnswerableThen(cfg: Config, a: Sys, b: Sys, k: Key, k2: Key, g: Group)
    requires AnsweredAlone(a, b, k) && k2 != k && Answerable(cfg, a, k2, g)
    ensures Answerable(cfg, b, k2, g)
  {
    assert Holders(b.calls, k2) == Holders(a.calls, k2);
  }

  lemma StillMaySendThen(cfg: Config, a: Sys, b: Sys, k: Key, k2: Key)
    requires AnsweredAlone(a, b, k) && k.id == k2.id && k.round < k2.round && MissingMaySend(cfg, a, k2)
    ensures MissingMaySend(cfg, b, k2)
  {
    forall w | w in Missing(cfg, Lookup(b.svc, k2)) ensures MaySend(b, w, k2) {
      assert MaySend(a, w, k2);
    }
  }

  /** What answering both rounds leaves as it was. */
  ghost predicate BothGrown(a: Sys, b: Sys, k1: Key, k2: Key) {
    && (forall d | d in a.calls :: d in b.calls && SameRounds(b.calls[d], a.calls[d]))
    && (forall d | d in b.calls && d !in a.calls :: b.calls[d].remaining == {k2})
    && (forall k | k != k1 && k != k2 && k in a.svc.rounds ::
          k in b.svc.rounds && b.svc.rounds[k].response == a.svc.rounds[k].response)
    && (forall w :: Sent(b, w) <= Sent(a, w) + {k1, k2}) && b.leaked == a.leaked
  }

  lemma ThenBothGrown(a: Sys, b: Sys, c: Sys, d: Sys, k1: Key, k2: Key)
    requires AnsweredAlone(a, b, k1) && Grown(b, c, k2) && Woke(c, d)
    ensures BothGrown(a, d, k1, k2)
  {
    forall w ensures Sent(d, w) <= Sent(a, w) + {k1, k2} {
      assert Sent(d, w) == Sent(c, w) && Sent(c, w) <= Sent(b, w) + {k2} && Sent(b, w) <= Sent(a, w) + {k1};
    }
  }

  lemma InTurn(cfg: Config, orderly: bool, sys: Sys, f: CallId, k1: Key, k2: Key, g1: Group, g2: Group)
    returns (steps: seq<Step>, after: Sys)
    requires Safe(cfg, sys) && Busy(sys) && cfg.wellFormed(g1) && cfg.wellFormed(g2)
    requires k1.id == k2.id && k1.round < k2.round && f in Holders(sys.calls, k1)
    requires Answerable(cfg, sys, k1, g1) && Answerable(cfg, sys, k2, g2)
    requires orderly ==> MissingMaySend(cfg, sys, k1) && MissingMaySend(cfg, sys, k2)
    ensures Reaches(cfg, orderly, sys, steps, after) && Safe(cfg, after) && Busy(after) && Awake(after)
    ensures Answered(after, k1) && Answered(after, k2) && Averaged(after, k2) && k2.round > 0
    ensures BothGrown(sys, after, k1, k2)
  {
    var first, a := AnswersAlone(cfg, orderly, sys, f, k1, g1);
    StillAnswerableThen(cfg, sys, a, k1, k2, g2);
    if orderly {
      StillMaySendThen(cfg, sys, a, k1, k2);
    }
    var second, b := GetsAnswer(cfg, orderly, a, k2, g2);
    StillAnswered(a, b, k2, k1);
    var third;
    third, after := AllWake(cfg, orderly, b, k1);
    SameHolders(b, after, k1);
    SameHolders(b, after, k2);
    ThenBothGrown(sys, a, b, after, k1, k2);
    Then(cfg, orderly, sys, first, a, second, b);
    Then(cfg, orderly, sys, first + second, b, third, after);
    steps := first + second + third;
  }

  // ---------- the other receivers leave ----------

  /** Call f still holds its rounds, with the same responses. */
  ghost predicate StillHolds(sys: Sys, after: Sys, f: CallId) {
    && f in sys.calls && f in after.calls && after.calls[f] == sys.calls[f]
    && after.leaked == sys.leaked && after.averagings == sys.averagings && after.sent == sys.sent
    && forall k | k in sys.calls[f].remaining ::
         k in sys.svc.rounds && k in after.svc.rounds && after.svc.rounds[k].response == sys.svc.rounds[k].response
  }

  lemma OneLeaves(cfg: Config, orderly: bool, sys: Sys, f: CallId, d: CallId, k2: Key)
    returns (steps: seq<Step>, after: Sys)
    requires Safe(cfg, sys) && Busy(sys) && Awake(sys) && f in sys.calls && d in sys.calls && d != f
    requires GoneOrHeld(sys.svc, k2)
    ensures Reaches(cfg, orderly, sys, steps, after) && Safe(cfg, after) && Busy(after) && Awake(after)
    ensures after.calls == sys.calls - {d} && StillHolds(sys, after, f) && GoneOrHeld(after.svc, k2)
  {
    var step, order;
    step, order, after := LeaveOne(cfg, sys, d);
    OneStep(cfg, orderly, sys, step);
    NextSafe(cfg, sys, step);
    NextBusy(cfg, sys, step);
    ReleasedKeeps(sys.svc, order);
    ReleasedHeld(sys.svc, order, k2);
    assert CallSafe(cfg, sys, f) && CallSafe(cfg, after, f);
    steps := [step];
  }

  lemma {:induction false} OthersLeave(cfg: Config, orderly: bool, sys: Sys, f: CallId, ds: set<CallId>, k2: Key)
    returns (steps: seq<Step>, after: Sys)
    requires Safe(cfg, sys) && Busy(sys) && Awake(sys) && f in sys.calls && ds <= sys.calls.Keys - {f}
    requires GoneOrHeld(sys.svc, k2)
    ensures Reaches(cfg, orderly, sys, steps, after) && Safe(cfg, after) && Busy(after) && Awake(after)
    ensures after.calls == sys.calls - ds && StillHolds(sys, after, f) && GoneOrHeld(after.svc, k2)
    decreases |ds|
  {
    if ds == {} {
      steps, after := [], sys;
      NoStep(cfg, orderly, sys);
      HoldsAll(cfg, sys, f);
      NoneRemoved(sys.calls, ds);
    } else {
      var d :| d in ds;
      var first, mid := OneLeaves(cfg, orderly, sys, f, d, k2);
      var more;
      more, after := OthersLeave(cfg, orderly, mid, f, ds - {d}, k2);
      Then(cfg, orderly, sys, first, mid, more, after);
      steps := first + more;
      HoldsTwice(sys, mid, after, f);
      OneRemoved(sys.calls, d, ds);
    }
  }

  lemma HoldsAll(cfg: Config, sys: Sys, f: CallId)
    requires Core(cfg, sys) && f in sys.calls
    ensures StillHolds(sys, sys, f)
  {
    assert CallSafe(cfg, sys, f);
  }

  lemma HoldsTwice(sys: Sys, mid: Sys, after: Sys, f: CallId)
    requires StillHolds(sys, mid, f) && StillHolds(mid, after, f)
    ensures StillHolds(sys, after, f)
  {
  }

  // ---------- call f leaves as the last receiver ----------

  /** Call f is the only one that holds k1, nobody else holds k2, and f leaves k1 last of what it completes. */
  ghost predicate Alone(cfg: Config, sys: Sys, f: CallId, k1: Key, k2: Key) {
    && Safe(cfg, sys) && Busy(sys) && Awake(sys) && f in sys.calls && k1 in sys.calls[f].remaining
    && (forall d | d in sys.calls && d != f :: k1 !in sys.calls[d].remaining && k2 !in sys.calls[d].remaining)
    && (sys.calls[f].unary ==> LeftLast(sys, f, sys.calls[f].order, k1, k2))
    && k1 in sys.svc.rounds && sys.svc.rounds[k1].response.Some? && GoneOrHeld(sys.svc, k2)
    && Leaked(sys, k1) == 0 && Leaked(sys, k2) == 0 && k2.id == k1.id && k2 != k1
  }

  lemma OnlyReceiver(cfg: Config, sys: Sys, f: CallId, k: Key)
    requires Core(cfg, sys) && f in sys.calls && k in sys.svc.rounds && Leaked(sys, k) == 0
    requires forall d | d in sys.calls && d != f :: k !in sys.calls[d].remaining
    ensures sys.svc.rounds[k].waiting == if k in sys.calls[f].remaining then 1 else 0
  {
    assert RoundSafe(cfg, sys, k);
    assert Holders(sys.calls, k) == if k in sys.calls[f].remaining then {f} else {};
  }

  lemma OpenOutlasts(cfg: Config, sys: Sys, f: CallId, k: Key, k1: Key, k2: Key)
    requires Core(cfg, sys) && f in Holders(sys.calls, k) && StaysOpen(sys, f, k, k1, k2)
    ensures Outlasts(sys.svc, k)
  {
    assert RoundSafe(cfg, sys, k) && |Holders(sys.calls, k)| > 0;
    if e :| e in sys.calls && Guards(sys.calls[e], k, k1, k2) && e != f {
      TwoReceivers(cfg, sys, f, e, k);
    }
  }

  lemma LeftThenCompleted(cfg: Config, sys: Sys, f: CallId, k1: Key, k2: Key)
    requires Core(cfg, sys) && f in sys.calls && Permutes(sys.calls[f].order, sys.calls[f].remaining)
    requires LeftLast(sys, f, sys.calls[f].order, k1, k2)
    ensures CompletedLast(sys.svc, sys.calls[f].order, k1, k2)
  {
    var order := sys.calls[f].order;
    forall p, q | 0 <= p < q < |order| && order[p] == k1 && order[q].id == k1.id ensures Outlasts(sys.svc, order[q]) {
      assert order[q] in order;
      OpenOutlasts(cfg, sys, f, order[q], k1, k2);
    }
  }

  lemma LastOrder(s: Service, ks: set<Key>, k1: Key, k2: Key) returns (order: seq<Key>)
    requires k1 in ks
    ensures Permutes(order, ks) && CompletedLast(s, order, k1, k2)
  {
    var rest := Listing(ks - {k1});
    order := rest + [k1];
    assert order[|rest|] == k1;
    assert forall k | k in ks :: k == k1 || k in ks - {k1};
  }

  lemma LastLeaves(cfg: Config, orderly: bool, sys: Sys, f: CallId, k1: Key, k2: Key)
    returns (steps: seq<Step>, after: Sys)
    requires Alone(cfg, sys, f, k1, k2)
    ensures Reaches(cfg, orderly, sys, steps, after) && Safe(cfg, after) && Busy(after)
    ensures after.averagings == sys.averagings && after.sent == sys.sent && after.calls == sys.calls - {f}
    ensures k1.id in after.svc.completed && after.svc.completed[k1.id] == k1.round && k2 !in after.svc.rounds
  {
    var order, step;
    assert CallSafe(cfg, sys, f);
    if sys.calls[f].unary {
      order, step := sys.calls[f].order, Return(f);
      LeftThenCompleted(cfg, sys, f, k1, k2);
      ReturnLeaves(cfg, sys, f);
    } else {
      order := LastOrder(sys.svc, sys.calls[f].remaining, k1, k2);
      step := Quit(f, order);
      QuitLeaves(cfg, sys, f, order);
    }
    OnlyReceiver(cfg, sys, f, k1);
    if k2 in sys.svc.rounds {
      OnlyReceiver(cfg, sys, f, k2);
    }
    ReleasedLast(sys.svc, order, k1, k2);
    OneStep(cfg, orderly, sys, step);
    NextSafe(cfg, sys, step);
    NextBusy(cfg, sys, step);
    steps, after := [step], Next(cfg, sys, step);
  }

  // ---------- the whole continuation ----------

  /** The run ends with the record at k1 although the newer k2 was averaged and completed. */
  ghost predicate GoesBack(cfg: Config, orderly: bool, sys: Sys, k1: Key, k2: Key, back: seq<Step>, older: Sys) {
    && k1.id == k2.id && k1.round < k2.round
    && Reaches(cfg, orderly, sys, back, older)
    && k1.id in older.svc.completed && older.svc.completed[k1.id] == k1.round
    && Averaged(older, k2) && k2 !in older.svc.rounds
  }

  /** In the run some key is averaged twice. */
  ghost predicate AveragesTwice(cfg: Config, orderly: bool, older: Sys, again: seq<Step>, end: Sys) {
    Reaches(cfg, orderly, older, again, end) && !Once(end.averagings)
  }

  /** Call f holds k1, the newer round k2 of the same layer or group is open, and f leaves k1 last of what it can be made
      to complete. */
  ghost predicate Overtaken(cfg: Config, sys: Sys, f: CallId, k1: Key, k2: Key, g1: Group, g2: Group) {
    && k1.id == k2.id && k1.round < k2.round && f in Holders(sys.calls, k1)
    && cfg.wellFormed(g1) && cfg.wellFormed(g2) && Answerable(cfg, sys, k1, g1) && Answerable(cfg, sys, k2, g2)
    && (sys.calls[f].unary ==> LeftLast(sys, f, sys.calls[f].order, k1, k2))
  }

  /** Nobody has sent anything newer of the layer or group, or holds another round of it only. */
  ghost predicate Newest(cfg: Config, sys: Sys, k1: Key, k2: Key) {
    && (forall w, h | w in cfg.workers && h in Sent(sys, w) && h.id == k2.id :: h.round <= k2.round)
    && (forall d, h | d in sys.calls && h in sys.calls[d].remaining && h.id == k2.id ::
          k1 in sys.calls[d].remaining || k2 in sys.calls[d].remaining)
  }

  lemma StillLast(sys: Sys, after: Sys, f: CallId, k1: Key, k2: Key)
    requires f in sys.calls && sys.calls[f].unary && Permutes(sys.calls[f].order, sys.calls[f].remaining)
    requires BothGrown(sys, after, k1, k2) && LeftLast(sys, f, sys.calls[f].order, k1, k2)
    ensures LeftLast(after, f, sys.calls[f].order, k1, k2)
  {
    var order := sys.calls[f].order;
    forall p, q | 0 <= p < q < |order| && order[p] == k1 && order[q].id == k1.id
      ensures StaysOpen(after, f, order[q], k1, k2)
    {
      assert StaysOpen(sys, f, order[q], k1, k2);
      if e :| e in sys.calls && Guards(sys.calls[e], order[q], k1, k2) && e != f {
        assert Guards(after.calls[e], order[q], k1, k2);
      }
    }
  }

  /** The other calls that hold k1 or k2. */
  ghost function Rivals(sys: Sys, f: CallId, k1: Key, k2: Key): set<CallId> {
    set d | d in sys.calls && d != f && (k1 in sys.calls[d].remaining || k2 in sys.calls[d].remaining)
  }

  lemma HeldLast(sys: Sys, after: Sys, f: CallId, k1: Key, k2: Key)
    requires f in sys.calls && sys.calls[f].unary && Permutes(sys.calls[f].order, sys.calls[f].remaining)
    requires StillHolds(sys, after, f) && after.calls == sys.calls - Rivals(sys, f, k1, k2)
    requires LeftLast(sys, f, sys.calls[f].order, k1, k2)
    ensures LeftLast(after, f, sys.calls[f].order, k1, k2)
  {
    var order := sys.calls[f].order;
    forall p, q | 0 <= p < q < |order| && order[p] == k1 && order[q].id == k1.id
      ensures StaysOpen(after, f, order[q], k1, k2)
    {
      assert order[q] in order && StaysOpen(sys, f, order[q], k1, k2);
      if e :| e in sys.calls && Guards(sys.calls[e], order[q], k1, k2) && e != f {
        assert e in after.calls && Guards(after.calls[e], order[q], k1, k2);
      }
    }
  }

  lemma AnsweredHeld(cfg: Config, sys: Sys, k: Key)
    requires Core(cfg, sys) && Answered(sys, k)
    ensures GoneOrHeld(sys.svc, k)
  {
    assert RoundSafe(cfg, sys, k);
  }

  /** Both rounds get their response, an abort lets every call leave, and the other calls that hold them leave. */
  lemma LeftAlone(cfg: Config, orderly: bool, sys: Sys, f: CallId, k1: Key, k2: Key, g1: Group, g2: Group)
    returns (steps: seq<Step>, after: Sys)
    requires Safe(cfg, sys) && Busy(sys) && Overtaken(cfg, sys, f, k1, k2, g1, g2)
    requires orderly ==> MissingMaySend(cfg, sys, k1) && MissingMaySend(cfg, sys, k2)
    ensures Reaches(cfg, orderly, sys, steps, after) && Alone(cfg, after, f, k1, k2)
    ensures Averaged(after, k2) && k2.round > 0
    ensures forall w :: Sent(after, w) <= Sent(sys, w) + {k1, k2}
    ensures forall d | d in after.calls :: d in sys.calls && SameRounds(after.calls[d], sys.calls[d])
  {
    var first, a := InTurn(cfg, orderly, sys, f, k1, k2, g1, g2);
    AnsweredHeld(cfg, a, k2);
    var more;
    more, after := OthersLeave(cfg, orderly, a, f, Rivals(a, f, k1, k2), k2);
    if sys.calls[f].unary {
      StillLast(sys, a, f, k1, k2);
      HeldLast(a, after, f, k1, k2);
    }
    Then(cfg, orderly, sys, first, a, more, after);
    steps := first + more;
  }

  lemma ThenMaySend(cfg: Config, sys: Sys, a: Sys, f: CallId, older: Sys, k1: Key, k2: Key)
    requires Newest(cfg, sys, k1, k2) && k1.id == k2.id && k1.round < k2.round
    requires forall w :: Sent(older, w) <= Sent(sys, w) + {k1, k2}
    requires forall d | d in older.calls :: d in sys.calls && SameRounds(older.calls[d], sys.calls[d])
    requires forall d | d in older.calls :: k1 !in older.calls[d].remaining && k2 !in older.calls[d].remaining
    ensures forall w | w in cfg.workers :: MaySend(older, w, k2)
  {
  }

  lemma OvertakenForgets(cfg: Config, orderly: bool, sys: Sys, f: CallId, k1: Key, k2: Key, g1: Group, g2: Group)
    returns (back: seq<Step>, older: Sys, again: seq<Step>, end: Sys)
    requires Safe(cfg, sys) && Busy(sys) && Overtaken(cfg, sys, f, k1, k2, g1, g2)
    requires orderly ==> MissingMaySend(cfg, sys, k1) && MissingMaySend(cfg, sys, k2)
    ensures GoesBack(cfg, orderly, sys, k1, k2, back, older)
    ensures !orderly || Newest(cfg, sys, k1, k2) ==> AveragesTwice(cfg, orderly, older, again, end)
  {
    var first, a := LeftAlone(cfg, orderly, sys, f, k1, k2, g1, g2);
    assert CallSafe(cfg, a, f);
    var last;
    last, older := LastLeaves(cfg, orderly, a, f, k1, k2);
    Then(cfg, orderly, sys, first, a, last, older);
    back := first + last;
    again, end := [], older;
    if !orderly || Newest(cfg, sys, k1, k2) {
      if orderly {
        ThenMaySend(cfg, sys, a, f, older, k1, k2);
      }
      again, end := AveragedAgain(cfg, orderly, older, k2, g2);
    }
  }
}
