/** Harmless batches are needed: in a job that went well so far, the first accepted batch that is not harmless can be
    followed by a run in which every batch keeps the stricter order and the record moves back, and no other can. */
module KeyedDiscipline {
  import opened Wrappers
  import opened Gradients
  import opened KeyedRounds
  import opened KeyedRuns
  import opened KeyedOrder
  import opened KeyedBackwards
  import opened KeyedOvertaken
  import opened KeyedHarmless

  predicate NoErrors(s: Service) {
    forall k | k in s.rounds :: s.rounds[k].err.None?
  }

  /** No abort, and every batch is accepted whole and makes no averaging fail. */
  predicate CleanStep(cfg: Config, sys: Sys, step: Step) {
    !step.Abort? && (step.Open? ==> CleanOpen(cfg, sys, step.c, step.unary, step.rs))
  }

  predicate CleanOpen(cfg: Config, sys: Sys, c: CallId, unary: bool, rs: seq<Request>) {
    Accepted(cfg, sys.svc, c.worker, rs) == |rs| && NoErrors(Admitted(cfg, sys, c, unary, rs).svc)
  }

  ghost predicate CleanRun(cfg: Config, sys: Sys, steps: seq<Step>)
    requires ValidRun(cfg, sys, steps)
    decreases steps
  {
    steps == [] || (CleanStep(cfg, sys, steps[0]) && CleanRun(cfg, Next(cfg, sys, steps[0]), steps[1..]))
  }

  /** A round is unanswered and waits for a Worker, or answered and waits for a receiver. */
  ghost predicate RoundClean(cfg: Config, sys: Sys, k: Key)
    requires k in sys.svc.rounds
  {
    var r := sys.svc.rounds[k];
    && r.err.None?
    && (r.response.Some? ==> r.waiting > 0)
    && (r.response.None? ==> r.submissions.Keys != cfg.workers)
  }

  ghost predicate Clean(cfg: Config, sys: Sys) {
    && sys.leaked == map[]
    && (forall k {:trigger RoundClean(cfg, sys, k)} | k in sys.svc.rounds :: RoundClean(cfg, sys, k))
    && (forall w, k {:trigger Kept(sys.svc, w, k)} | k in Sent(sys, w) :: Kept(sys.svc, w, k))
  }

  // ---------- opening ----------

  lemma SettledClean(cfg: Config, r: Round)
    requires Settle(cfg, r).err.None? && r.response.None? && r.waiting > 0
    ensures var s := Settle(cfg, r); s.waiting > 0 && (s.response.None? ==> s.submissions.Keys != cfg.workers)
  {
    assert |r.submissions.Keys| == |r.submissions|;
  }

  lemma AdmittedRoundClean(cfg: Config, sys: Sys, c: CallId, unary: bool, rs: seq<Request>, k: Key)
    requires Safe(cfg, sys) && Clean(cfg, sys) && c.worker in cfg.workers
    requires AcceptedUpTo(cfg, sys.svc, c.worker, rs, |rs|)
    requires k in Admitted(cfg, sys, c, unary, rs).svc.rounds
    requires Admitted(cfg, sys, c, unary, rs).svc.rounds[k].err.None?
    ensures RoundClean(cfg, Admitted(cfg, sys, c, unary, rs), k)
  {
    InsertedRound(cfg, sys, c.worker, rs, k);
    if k in sys.svc.rounds {
      assert RoundClean(cfg, sys, k);
    }
    if k in Keys(rs) {
      SettledClean(cfg, Inserted(sys.svc, c.worker, rs).rounds[k]);
    }
  }

  lemma AdmittedSentKept(cfg: Config, sys: Sys, c: CallId, unary: bool, rs: seq<Request>, w: Worker, k: Key)
    requires k in Sent(sys, w) ==> Kept(sys.svc, w, k)
    requires k in Sent(Admitted(cfg, sys, c, unary, rs), w)
    ensures Kept(Admitted(cfg, sys, c, unary, rs).svc, w, k)
  {
    SentSubmissions(cfg, sys.svc, c.worker, rs, k);
  }

  /** An accepted batch keeps the job clean, in order or not. */
  lemma OpenClean(cfg: Config, sys: Sys, c: CallId, unary: bool, rs: seq<Request>)
    requires Safe(cfg, sys) && Clean(cfg, sys) && c.worker in cfg.workers && CleanOpen(cfg, sys, c, unary, rs)
    ensures Clean(cfg, Admitted(cfg, sys, c, unary, rs))
  {
    var after := Admitted(cfg, sys, c, unary, rs);
    forall k | k in after.svc.rounds ensures RoundClean(cfg, after, k) {
      AdmittedRoundClean(cfg, sys, c, unary, rs, k);
    }
    forall w, k | k in Sent(after, w) ensures Kept(after.svc, w, k) {
      assert k in Sent(sys, w) ==> Kept(sys.svc, w, k);
      AdmittedSentKept(cfg, sys, c, unary, rs, w, k);
    }
  }

  // ---------- leaving ----------

  lemma LeftRoundClean(cfg: Config, sys: Sys, after: Sys, order: seq<Key>, k: Key)
    requires Releasable(sys.svc, order) && after.svc == ReleasedAll(sys.svc, order) && k in after.svc.rounds
    requires forall k2 {:trigger RoundClean(cfg, sys, k2)} | k2 in sys.svc.rounds :: RoundClean(cfg, sys, k2)
    ensures RoundClean(cfg, after, k)
  {
    ReleasedKeeps(sys.svc, order);
    assert RoundClean(cfg, sys, k);
    if sys.svc.rounds[k].response.Some? {
      ReleasedHeld(sys.svc, order, k);
    }
  }

  /** What was sent stays open, or has been averaged and completed. */
  lemma LeftKept(cfg: Config, sys: Sys, after: Sys, c: CallId, order: seq<Key>, w: Worker, k: Key)
    requires Leaves(cfg, sys, c, order) && LeftBy(sys, after, c, order) && AveragedTidy(cfg, after)
    requires CompletedGrows(sys.svc, after.svc) && Kept(sys.svc, w, k)
    ensures Kept(after.svc, w, k)
  {
    ReleasedKeeps(sys.svc, order);
    if k in sys.svc.rounds && k !in after.svc.rounds {
      GoneWhen(sys.svc, order, k);
      CompletedAveraged(cfg, sys, c, order, k);
      GoneNotNewer(cfg, after, k);
    }
  }

  lemma LeftClean(cfg: Config, sys: Sys, after: Sys, c: CallId, order: seq<Key>)
    requires Leaves(cfg, sys, c, order) && LeftBy(sys, after, c, order) && AveragedTidy(cfg, after)
    requires CompletedGrows(sys.svc, after.svc) && Clean(cfg, sys)
    ensures Clean(cfg, after)
  {
    forall k | k in after.svc.rounds ensures RoundClean(cfg, after, k) {
      LeftRoundClean(cfg, sys, after, order, k);
    }
    forall w, k | k in Sent(after, w) ensures Kept(after.svc, w, k) {
      assert k in Sent(sys, w);
      assert Kept(sys.svc, w, k);
      LeftKept(cfg, sys, after, c, order, w, k);
    }
  }

  lemma LeaversClean(cfg: Config, sys: Sys, c: CallId, order: seq<Key>)
    requires Safe(cfg, sys) && Tidy(cfg, sys) && Clean(cfg, sys) && c in sys.calls
    requires Permutes(order, sys.calls[c].remaining) && sys.calls[c].remaining <= sys.svc.rounds.Keys
    requires sys.calls[c].unary ==> order == sys.calls[c].order
    ensures Clean(cfg, Gone(LeftAll(sys, c, order), c))
  {
    assert CallTidy(sys, c);
    LeftAllIs(sys, c, order);
    LeaversTidy(cfg, sys, c, order);
    LeftClean(cfg, sys, Gone(LeftAll(sys, c, order), c), c, order);
  }

  lemma EmitClean(cfg: Config, sys: Sys, c: CallId, k: Key)
    requires Safe(cfg, sys) && Tidy(cfg, sys) && Clean(cfg, sys) && Enabled(cfg, sys, Emit(c, k))
    ensures Clean(cfg, Next(cfg, sys, Emit(c, k)))
  {
    assert CallTidy(sys, c);
    ReleasedOne(sys.svc, k);
    EmitTidy(cfg, sys, c, k);
    LeftClean(cfg, sys, Next(cfg, sys, Emit(c, k)), c, [k]);
  }

  lemma SameClean(cfg: Config, sys: Sys, after: Sys)
    requires Clean(cfg, sys) && after.svc == sys.svc && after.leaked == sys.leaked && after.sent == sys.sent
    ensures Clean(cfg, after)
  {
    forall k | k in after.svc.rounds ensures RoundClean(cfg, after, k) {
      assert RoundClean(cfg, sys, k);
    }
    forall w, k | k in Sent(after, w) ensures Kept(after.svc, w, k) {
      assert Kept(sys.svc, w, k);
    }
  }

  lemma NextClean(cfg: Config, sys: Sys, step: Step)
    requires Safe(cfg, sys) && Tidy(cfg, sys) && Clean(cfg, sys)
    requires Enabled(cfg, sys, step) && CleanStep(cfg, sys, step)
    ensures Clean(cfg, Next(cfg, sys, step))
  {
    match step
    case Open(c, unary, rs) => OpenClean(cfg, sys, c, unary, rs);
    case Return(c) =>
      LeaversClean(cfg, sys, c, sys.calls[c].order);
      SameClean(cfg, Gone(LeftAll(sys, c, sys.calls[c].order), c), Next(cfg, sys, step));
    case Emit(c, k) => EmitClean(cfg, sys, c, k);
    case Quit(c, order) => LeaversClean(cfg, sys, c, order);
    case Sleep(c) => SameClean(cfg, sys, Next(cfg, sys, step));
  }

  lemma {:induction false} RunClean(cfg: Config, sys: Sys, steps: seq<Step>)
    requires Safe(cfg, sys) && Busy(sys) && Tidy(cfg, sys) && Clean(cfg, sys)
    requires ValidRun(cfg, sys, steps) && HarmlessRun(cfg, sys, steps) && CleanRun(cfg, sys, steps)
    ensures var after := After(cfg, sys, steps);
            Safe(cfg, after) && Busy(after) && Tidy(cfg, after) && Clean(cfg, after)
    decreases steps
  {
    if steps != [] {
      NextSafe(cfg, sys, steps[0]);
      NextBusy(cfg, sys, steps[0]);
      NextTidy(cfg, sys, steps[0]);
      NextClean(cfg, sys, steps[0]);
      RunClean(cfg, Next(cfg, sys, steps[0]), steps[1..]);
    }
  }

  // ---------- the two orders ----------

  lemma BatchFresh(cfg: Config, s: Service, w: Worker, rs: seq<Request>, k: Key)
    requires AcceptedUpTo(cfg, s, w, rs, |rs|) && k in Keys(rs)
    ensures Fresh(s, k) && (k in s.rounds ==> w !in s.rounds[k].submissions)
  {
    assert rs[..|rs|] == rs;
    AcceptedKey(cfg, s, w, rs, |rs|, k);
  }

  /** No round of the batch is answered when the batch has been registered. */
  ghost predicate NoneAnswered(cfg: Config, sys: Sys, c: CallId, unary: bool, rs: seq<Request>) {
    forall k | k in Keys(rs) :: Unanswered(Admitted(cfg, sys, c, unary, rs).svc, k)
  }

  predicate Unanswered(s: Service, k: Key) {
    k in s.rounds && s.rounds[k].response.None?
  }

  /** A batch that is not harmless breaks the stricter order, and nothing else does: not in streaming calls, not with one
      round of each layer or group, and not while no round of the batch is answered. */
  lemma BreaksOrderWhen(cfg: Config, sys: Sys, c: CallId, unary: bool, rs: seq<Request>)
    requires Clean(cfg, sys) && Accepted(cfg, sys.svc, c.worker, rs) == |rs|
    ensures SecondCall(sys, c, rs) || LeavesOlder(cfg, sys, c, unary, rs) ==> !Disciplined(sys, c, unary, rs)
    ensures !unary || OneRoundEach(Keys(rs)) || NoneAnswered(cfg, sys, c, unary, rs) ==>
              (SecondCall(sys, c, rs) || LeavesOlder(cfg, sys, c, unary, rs) <==> !Disciplined(sys, c, unary, rs))
  {
    AcceptedOrder(cfg, sys.svc, c.worker, rs);
    if Disciplined(sys, c, unary, rs) {
      DisciplinedHarmless(cfg, sys, c, unary, rs);
    } else if !SecondCall(sys, c, rs) {
      if !unary || OneRoundEach(Keys(rs)) {
        BrokenBehind(cfg, sys, c, unary, rs);
      } else if NoneAnswered(cfg, sys, c, unary, rs) {
        UnansweredBehind(cfg, sys, c, rs);
      }
    }
  }

  /** What the Worker sent before is not accepted again. */
  lemma SentNotAgain(cfg: Config, sys: Sys, w: Worker, rs: seq<Request>, k: Key)
    requires Clean(cfg, sys) && AcceptedUpTo(cfg, sys.svc, w, rs, |rs|) && k in Sent(sys, w)
    ensures k !in Keys(rs)
  {
    assert Kept(sys.svc, w, k);
    if k in Keys(rs) {
      BatchFresh(cfg, sys.svc, w, rs, k);
    }
  }

  lemma UnansweredLast(sys: Sys, c: CallId, order: seq<Key>, ks: set<Key>, k1: Key, k2: Key)
    requires Permutes(order, ks) && k1 in ks && forall k | k in ks :: Unanswered(sys.svc, k)
    requires forall p, q | 0 <= p < q < |order| && order[p] == k1 :: order[q] != k2
    ensures LeftLast(sys, c, order, k1, k2)
  {
    forall q | 0 <= q < |order| ensures StaysOpen(sys, c, order[q], k1, k2) {
      assert order[q] in order && Unanswered(sys.svc, order[q]);
    }
  }

  lemma UnansweredBehind(cfg: Config, sys: Sys, c: CallId, rs: seq<Request>)
    requires Clean(cfg, sys) && AcceptedUpTo(cfg, sys.svc, c.worker, rs, |rs|) && Permutes(Order(rs), Keys(rs))
    requires NoneAnswered(cfg, sys, c, true, rs)
    requires !Disciplined(sys, c, true, rs) && !SecondCall(sys, c, rs)
    ensures LeavesOlder(cfg, sys, c, true, rs)
  {
    var order := Order(rs);
    var k1, k2;
    if Increases(order) {
      k1, k2 := OlderSent(sys, c, true, rs);
      SentNotAgain(cfg, sys, c.worker, rs, k2);
    } else {
      var i, j :| 0 <= i < j < |order| && order[i].id == order[j].id && order[i].round >= order[j].round;
      k1, k2 := order[j], order[i];
      assert k1 in order && k2 in order && k1 != k2;
    }
    UnansweredLast(Admitted(cfg, sys, c, true, rs), c, order, Keys(rs), k1, k2);
    assert Behind(cfg, sys, c, true, rs, k1, k2);
  }

  lemma BrokenBehind(cfg: Config, sys: Sys, c: CallId, unary: bool, rs: seq<Request>)
    requires Permutes(Order(rs), Keys(rs)) && (!unary || OneRoundEach(Keys(rs)))
    requires !Disciplined(sys, c, unary, rs) && !SecondCall(sys, c, rs)
    ensures LeavesOlder(cfg, sys, c, unary, rs)
  {
    if unary {
      OneEachIncreases(Order(rs), Keys(rs));
    }
    if BatchOrdered(unary, rs) {
      var k1, k2 := OlderSent(sys, c, unary, rs);
      if unary {
        OneLast(Admitted(cfg, sys, c, unary, rs), c, Order(rs), Keys(rs), k1, k2);
      }
      assert Behind(cfg, sys, c, unary, rs, k1, k2);
    } else {
      TwoRounds(cfg, sys, c, rs);
    }
  }

  lemma OlderSent(sys: Sys, c: CallId, unary: bool, rs: seq<Request>) returns (k1: Key, k2: Key)
    requires BatchOrdered(unary, rs) && !Disciplined(sys, c, unary, rs) && !SecondCall(sys, c, rs)
    ensures k1 in Keys(rs) && k2 in Sent(sys, c.worker) && k1.id == k2.id && k1.round < k2.round
  {
    assert forall d, h, k | d in sys.calls && d.worker == c.worker && h in sys.calls[d].remaining && k in Keys(rs) ::
        Shares(sys, c, rs, d, h, k) <==> h.id == k.id;
    k2, k1 :| k2 in Sent(sys, c.worker) && k1 in Keys(rs) && k2.id == k1.id && k2.round > k1.round;
  }

  lemma TwoRounds(cfg: Config, sys: Sys, c: CallId, rs: seq<Request>)
    requires !OneRoundEach(Keys(rs))
    ensures LeavesOlder(cfg, sys, c, false, rs)
  {
    var k, k2 :| k in Keys(rs) && k2 in Keys(rs) && k.id == k2.id && k != k2;
    if k.round < k2.round {
      assert Behind(cfg, sys, c, false, rs, k, k2);
    } else {
      assert Behind(cfg, sys, c, false, rs, k2, k);
    }
  }

  lemma OneLast(sys: Sys, c: CallId, order: seq<Key>, ks: set<Key>, k1: Key, k2: Key)
    requires Permutes(order, ks) && OneRoundEach(ks) && k1 in ks
    ensures LeftLast(sys, c, order, k1, k2)
  {
    forall p, q | 0 <= p < q < |order| && order[p] == k1 ensures order[q].id != k1.id {
      assert order[q] in ks;
    }
  }

  /** The last key of this layer or group in the order. */
  lemma {:induction false} LastOf(order: seq<Key>, k: Key) returns (last: Key)
    requires k in order && forall i, j | 0 <= i < j < |order| :: order[i] != order[j]
    ensures last in order && last.id == k.id
    ensures forall p, q | 0 <= p < q < |order| && order[p] == last :: order[q].id != k.id
    decreases order
  {
    var n := |order| - 1;
    if order[n].id == k.id {
      last := order[n];
    } else {
      var i :| 0 <= i < |order| && order[i] == k;
      assert order[..n][i] == k;
      last := LastOf(order[..n], k);
      assert forall p | 0 <= p < n :: order[..n][p] == order[p];
    }
  }

  predicate Decreases(order: seq<Key>) {
    forall i, j | 0 <= i < j < |order| && order[i].id == order[j].id :: order[i].round > order[j].round
  }

  lemma OlderAfter(sys: Sys, c: CallId, order: seq<Key>, ks: set<Key>) returns (k1: Key, k2: Key)
    requires Permutes(order, ks) && Decreases(order) && !OneRoundEach(ks)
    ensures k1 in ks && k2 in ks && k1.id == k2.id && k1.round < k2.round && LeftLast(sys, c, order, k1, k2)
  {
    var k, h :| k in ks && h in ks && k.id == h.id && k != h;
    k1 := LastOf(order, k);
    k2 := if k == k1 then h else k;
    var p :| 0 <= p < |order| && order[p] == k1;
    var q :| 0 <= q < |order| && order[q] == k2;
    assert q < p;
  }

  /** A unary batch with several rounds of a layer or group, newest first, leaves an older one last. */
  lemma DecreasingLeavesOlder(cfg: Config, sys: Sys, c: CallId, rs: seq<Request>)
    requires DistinctKeys(rs) && Decreases(Order(rs)) && !OneRoundEach(Keys(rs))
    ensures LeavesOlder(cfg, sys, c, true, rs)
  {
    OrderPermutes(rs);
    var k1, k2 := OlderAfter(Admitted(cfg, sys, c, true, rs), c, Order(rs), Keys(rs));
    assert Behind(cfg, sys, c, true, rs, k1, k2);
  }

  // ---------- why it moves the record back ----------

  /** The Workers that have not submitted to round k can still send g in order, and averaging it then succeeds. */
  ghost predicate CanGoOn(cfg: Config, sys: Sys, k: Key, g: Group)
    requires k in sys.svc.rounds
  {
    && MissingMaySend(cfg, sys, k) && cfg.wellFormed(g)
    && (sys.svc.rounds[k].response.None? ==> cfg.average(Completed(cfg, sys.svc.rounds[k], g)).Average?)
  }

  /** The Worker has submitted to this open round, of a layer or group of the batch. */
  ghost predicate Concerns(sys: Sys, w: Worker, rs: seq<Request>, k: Key) {
    && k in sys.svc.rounds && w in sys.svc.rounds[k].submissions
    && exists k2 :: k2 in Keys(rs) && k2.id == k.id
  }

  ghost predicate OthersCanGoOn(cfg: Config, sys: Sys, w: Worker, rs: seq<Request>, fill: Key -> Group) {
    forall k | Concerns(sys, w, rs, k) :: CanGoOn(cfg, sys, k, fill(k))
  }

  /** Round k has its response, or can still be joined. */
  ghost predicate Live(s: Service, k: Key) {
    k in s.rounds && (s.rounds[k].response.None? ==> Fresh(s, k))
  }

  lemma CleanAnswerable(cfg: Config, sys: Sys, k: Key, g: Group)
    requires Safe(cfg, sys) && Clean(cfg, sys) && Live(sys.svc, k) && CanGoOn(cfg, sys, k, g)
    ensures Answerable(cfg, sys, k, g)
  {
    assert RoundClean(cfg, sys, k) && RoundSafe(cfg, sys, k);
    var r := sys.svc.rounds[k];
    if r.response.None? && Missing(cfg, r) == {} {
      NotFull(cfg, r);
    }
  }

  /** Call f of the Worker can leave k1 last, and both k1 and the newer k2, which the Worker has sent, are open. */
  ghost predicate Culprit(sys: Sys, w: Worker, rs: seq<Request>, f: CallId, k1: Key, k2: Key) {
    && f in sys.calls && f.worker == w && OutOfPlace(sys, f, k1, k2)
    && Concerns(sys, w, rs, k1) && Concerns(sys, w, rs, k2) && Live(sys.svc, k1) && Live(sys.svc, k2)
  }

  lemma AdmittedKeeps(cfg: Config, sys: Sys, c: CallId, unary: bool, rs: seq<Request>)
    requires c !in sys.calls
    ensures var after := Admitted(cfg, sys, c, unary, rs);
            && after.svc.completed == sys.svc.completed && Sent(after, c.worker) == Sent(sys, c.worker) + Keys(rs)
            && after.calls.Keys == sys.calls.Keys + {c}
            && SameRounds(after.calls[c], Call(unary, Order(rs), Keys(rs), false))
            && forall d | d in sys.calls :: SameRounds(after.calls[d], sys.calls[d])
  {
  }

  lemma BatchConcerns(cfg: Config, sys: Sys, c: CallId, unary: bool, rs: seq<Request>, k: Key)
    requires AcceptedUpTo(cfg, sys.svc, c.worker, rs, |rs|) && k in Keys(rs)
    ensures Concerns(Admitted(cfg, sys, c, unary, rs), c.worker, rs, k) && Live(Admitted(cfg, sys, c, unary, rs).svc, k)
  {
    SentSubmissions(cfg, sys.svc, c.worker, rs, k);
    BatchFresh(cfg, sys.svc, c.worker, rs, k);
  }

  lemma OpenConcerns(cfg: Config, sys: Sys, c: CallId, unary: bool, rs: seq<Request>, k: Key, k2: Key)
    requires k in sys.svc.rounds && c.worker in sys.svc.rounds[k].submissions && k2 in Keys(rs) && k2.id == k.id
    ensures Concerns(Admitted(cfg, sys, c, unary, rs), c.worker, rs, k)
  {
    SentSubmissions(cfg, sys.svc, c.worker, rs, k);
  }

  lemma OlderCulprit(cfg: Config, sys: Sys, c: CallId, unary: bool, rs: seq<Request>, k1: Key, k2: Key)
    requires Clean(cfg, sys) && c !in sys.calls && AcceptedUpTo(cfg, sys.svc, c.worker, rs, |rs|)
    requires Behind(cfg, sys, c, unary, rs, k1, k2)
    ensures Culprit(Admitted(cfg, sys, c, unary, rs), c.worker, rs, c, k1, k2)
  {
    AdmittedKeeps(cfg, sys, c, unary, rs);
    BatchConcerns(cfg, sys, c, unary, rs, k1);
    if k2 in Keys(rs) {
      BatchConcerns(cfg, sys, c, unary, rs, k2);
    } else {
      BatchFresh(cfg, sys.svc, c.worker, rs, k1);
      assert Kept(sys.svc, c.worker, k2);
      OpenConcerns(cfg, sys, c, unary, rs, k2, k1);
    }
  }

  /** The last round of the layer or group that the call leaves. */
  ghost predicate LastHeld(sys: Sys, d: CallId, held: Key) {
    && d in sys.calls && held in sys.calls[d].remaining
    && (sys.calls[d].unary ==> held in sys.calls[d].order && LastInOrder(sys.calls[d].order, held))
  }

  predicate LastInOrder(order: seq<Key>, k: Key) {
    forall p, q | 0 <= p < q < |order| && order[p] == k :: order[q].id != k.id
  }

  lemma SomeLastHeld(sys: Sys, d: CallId, h: Key) returns (held: Key)
    requires UnaryIntact(sys) && d in sys.calls && h in sys.calls[d].remaining
    ensures LastHeld(sys, d, held) && held.id == h.id
  {
    held := h;
    if sys.calls[d].unary {
      held := LastOf(sys.calls[d].order, h);
    }
  }

  /** A held round is not behind the record unless it has its response. */
  lemma HeldLive(cfg: Config, sys: Sys, d: CallId, held: Key)
    requires Core(cfg, sys) && Tidy(cfg, sys) && LastHeld(sys, d, held)
    ensures Live(sys.svc, held) && d.worker in sys.svc.rounds[held].submissions && held in Sent(sys, d.worker)
  {
    HoldsSent(cfg, sys, d);
    assert CallSafe(cfg, sys, d) && RoundSafe(cfg, sys, held) && CallTidy(sys, d);
    if held.id in sys.svc.completed && held.round <= sys.svc.completed[held.id] {
      assert RecordTidy(sys, held.id);
      var latest := Key(held.id, sys.svc.completed[held.id]);
      AveragedSent(cfg, sys, d, latest);
      NothingNewer(sys, d, held, latest);
    }
  }

  lemma NothingNewer(sys: Sys, d: CallId, held: Key, k: Key)
    requires LastHeld(sys, d, held) && CallTidy(sys, d) && k in Sent(sys, d.worker) && k.id == held.id
    ensures k.round <= held.round
  {
    assert !OutOfPlace(sys, d, held, k);
  }

  lemma StillLive(cfg: Config, sys: Sys, c: CallId, unary: bool, rs: seq<Request>, d: CallId, held: Key)
    requires Core(cfg, sys) && c.worker in cfg.workers && c !in sys.calls
    requires AcceptedUpTo(cfg, sys.svc, c.worker, rs, |rs|)
    requires d in sys.calls && held in sys.calls[d].remaining && Live(sys.svc, held)
    ensures Live(Admitted(cfg, sys, c, unary, rs).svc, held)
  {
    AdmittedNoReceiver(cfg, sys, c, unary, rs, d, held);
  }

  lemma SecondCulprit(cfg: Config, sys: Sys, c: CallId, unary: bool, rs: seq<Request>, d: CallId, h: Key, k: Key)
    returns (f: CallId, k1: Key, k2: Key)
    requires Safe(cfg, sys) && Tidy(cfg, sys) && c.worker in cfg.workers && c !in sys.calls
    requires AcceptedUpTo(cfg, sys.svc, c.worker, rs, |rs|)
    requires Permutes(Order(rs), Keys(rs)) && d in sys.calls && Shares(sys, c, rs, d, h, k)
    ensures Culprit(Admitted(cfg, sys, c, unary, rs), c.worker, rs, f, k1, k2)
  {
    var held := SomeLastHeld(sys, d, h);
    var sent := LastOf(Order(rs), k);
    HeldLive(cfg, sys, d, held);
    StillLive(cfg, sys, c, unary, rs, d, held);
    OpenConcerns(cfg, sys, c, unary, rs, held, sent);
    BatchConcerns(cfg, sys, c, unary, rs, sent);
    NotSame(cfg, sys.svc, c.worker, rs, held, sent);
    if held.round < sent.round {
      f, k1, k2 := d, held, sent;
      OldCallCulprit(cfg, sys, c, unary, rs, d, held, sent);
    } else {
      f, k1, k2 := c, sent, held;
      NewCallCulprit(cfg, sys, c, unary, rs, sent, held);
    }
  }

  lemma NotSame(cfg: Config, s: Service, w: Worker, rs: seq<Request>, held: Key, sent: Key)
    requires AcceptedUpTo(cfg, s, w, rs, |rs|) && sent in Keys(rs) && held in s.rounds && w in s.rounds[held].submissions
    ensures held != sent
  {
    BatchFresh(cfg, s, w, rs, sent);
  }

  lemma OldCallCulprit(cfg: Config, sys: Sys, c: CallId, unary: bool, rs: seq<Request>, d: CallId, held: Key, sent: Key)
    requires c !in sys.calls && LastHeld(sys, d, held) && d.worker == c.worker && sent in Keys(rs)
    requires held.id == sent.id && held.round < sent.round
    ensures OutOfPlace(Admitted(cfg, sys, c, unary, rs), d, held, sent)
  {
    AdmittedKeeps(cfg, sys, c, unary, rs);
  }

  lemma NewCallCulprit(cfg: Config, sys: Sys, c: CallId, unary: bool, rs: seq<Request>, last: Key, held: Key)
    requires c !in sys.calls && last in Keys(rs) && last in Order(rs) && held in Sent(sys, c.worker)
    requires held.id == last.id && last.round < held.round && LastInOrder(Order(rs), last)
    ensures OutOfPlace(Admitted(cfg, sys, c, unary, rs), c, last, held)
  {
    AdmittedKeeps(cfg, sys, c, unary, rs);
  }

  lemma SomeCulprit(cfg: Config, sys: Sys, c: CallId, unary: bool, rs: seq<Request>, after: Sys)
    returns (f: CallId, k1: Key, k2: Key)
    requires Safe(cfg, sys) && Tidy(cfg, sys) && Clean(cfg, sys) && c.worker in cfg.workers && c !in sys.calls
    requires AcceptedUpTo(cfg, sys.svc, c.worker, rs, |rs|) && Permutes(Order(rs), Keys(rs))
    requires SecondCall(sys, c, rs) || LeavesOlder(cfg, sys, c, unary, rs)
    requires after == Admitted(cfg, sys, c, unary, rs)
    ensures Culprit(after, c.worker, rs, f, k1, k2)
  {
    if d, h, k :| d in sys.calls && Shares(sys, c, rs, d, h, k) {
      f, k1, k2 := SecondCulprit(cfg, sys, c, unary, rs, d, h, k);
    } else {
      f := c;
      k1, k2 :| Behind(cfg, sys, c, unary, rs, k1, k2);
      OlderCulprit(cfg, sys, c, unary, rs, k1, k2);
    }
  }

  lemma CulpritForgets(cfg: Config, sys: Sys, w: Worker, rs: seq<Request>, f: CallId, k1: Key, k2: Key,
                       fill: Key -> Group)
    returns (back: seq<Step>, older: Sys, again: seq<Step>, end: Sys)
    requires Safe(cfg, sys) && Busy(sys) && Clean(cfg, sys)
    requires Culprit(sys, w, rs, f, k1, k2) && OthersCanGoOn(cfg, sys, w, rs, fill)
    ensures GoesBack(cfg, true, sys, k1, k2, back, older)
    ensures Newest(cfg, sys, k1, k2) ==> AveragesTwice(cfg, true, older, again, end)
  {
    CleanAnswerable(cfg, sys, k1, fill(k1));
    CleanAnswerable(cfg, sys, k2, fill(k2));
    back, older, again, end := OvertakenForgets(cfg, true, sys, f, k1, k2, fill(k1), fill(k2));
  }

  /** The job went well up to this state: no abort, no rejection, no failed averaging, and only harmless batches. */
  ghost predicate WentWell(cfg: Config, steps: seq<Step>, sys: Sys) {
    && ValidRun(cfg, INIT, steps) && HarmlessRun(cfg, INIT, steps) && CleanRun(cfg, INIT, steps)
    && After(cfg, INIT, steps) == sys
  }

  /** The Worker opens a call for this batch, which is accepted whole. */
  ghost predicate Opens(cfg: Config, sys: Sys, c: CallId, unary: bool, rs: seq<Request>, after: Sys) {
    && c.worker in cfg.workers && c !in sys.calls && rs != [] && CleanOpen(cfg, sys, c, unary, rs)
    && after == Admitted(cfg, sys, c, unary, rs)
  }

  /** This is a step of the barrier. */
  lemma OpensIs(cfg: Config, sys: Sys, c: CallId, unary: bool, rs: seq<Request>, after: Sys)
    requires Opens(cfg, sys, c, unary, rs, after)
    ensures Enabled(cfg, sys, Open(c, unary, rs)) && after == Next(cfg, sys, Open(c, unary, rs))
  {
    OpenedWhole(cfg, sys, c, unary, rs);
  }

  lemma OpensState(cfg: Config, sys: Sys, c: CallId, unary: bool, rs: seq<Request>, after: Sys)
    requires Safe(cfg, sys) && Busy(sys) && Clean(cfg, sys) && Opens(cfg, sys, c, unary, rs, after)
    ensures Safe(cfg, after) && Busy(after) && Clean(cfg, after)
  {
    OpensIs(cfg, sys, c, unary, rs, after);
    OpenClean(cfg, sys, c, unary, rs);
    NextSafe(cfg, sys, Open(c, unary, rs));
    NextBusy(cfg, sys, Open(c, unary, rs));
  }

  lemma WellRunState(cfg: Config, steps: seq<Step>, sys: Sys)
    requires WentWell(cfg, steps, sys)
    ensures Safe(cfg, sys) && Busy(sys) && Tidy(cfg, sys) && Clean(cfg, sys)
  {
    RunClean(cfg, INIT, steps);
  }

  lemma BatchMovesBack(cfg: Config, sys: Sys, c: CallId, unary: bool, rs: seq<Request>, after: Sys, fill: Key -> Group)
    returns (f: CallId, k1: Key, k2: Key, back: seq<Step>, older: Sys, again: seq<Step>, end: Sys)
    requires Safe(cfg, sys) && Busy(sys) && Tidy(cfg, sys) && Clean(cfg, sys) && Opens(cfg, sys, c, unary, rs, after)
    requires SecondCall(sys, c, rs) || LeavesOlder(cfg, sys, c, unary, rs)
    requires OthersCanGoOn(cfg, after, c.worker, rs, fill)
    ensures Culprit(after, c.worker, rs, f, k1, k2)
    ensures GoesBack(cfg, true, after, k1, k2, back, older)
    ensures Newest(cfg, after, k1, k2) ==> AveragesTwice(cfg, true, older, again, end)
  {
    AcceptedOrder(cfg, sys.svc, c.worker, rs);
    f, k1, k2 := SomeCulprit(cfg, sys, c, unary, rs, after);
    OpensState(cfg, sys, c, unary, rs, after);
    back, older, again, end := CulpritForgets(cfg, after, c.worker, rs, f, k1, k2, fill);
  }

  /** In a job that went well so far, an accepted batch of a Worker that has an unfinished call on one
      of its layers or groups, or that can leave an older round of one last, can be continued in order, if the other
      Workers can go on with the rounds of these layers and groups: a call of this Worker moves the record back behind
      a key that was averaged and completed, and if that key is the newest one, it is averaged again. */
  lemma UndisciplinedMovesBack(cfg: Config, steps: seq<Step>, sys: Sys, c: CallId, unary: bool, rs: seq<Request>,
                               after: Sys, fill: Key -> Group)
    returns (f: CallId, k1: Key, k2: Key, back: seq<Step>, older: Sys, again: seq<Step>, end: Sys)
    requires WentWell(cfg, steps, sys) && Opens(cfg, sys, c, unary, rs, after)
    requires SecondCall(sys, c, rs) || LeavesOlder(cfg, sys, c, unary, rs)
    requires OthersCanGoOn(cfg, after, c.worker, rs, fill)
    ensures Culprit(after, c.worker, rs, f, k1, k2)
    ensures GoesBack(cfg, true, after, k1, k2, back, older)
    ensures Newest(cfg, after, k1, k2) ==> AveragesTwice(cfg, true, older, again, end)
  {
    WellRunState(cfg, steps, sys);
    f, k1, k2, back, older, again, end := BatchMovesBack(cfg, sys, c, unary, rs, after, fill);
  }

  lemma HarmlessStays(cfg: Config, sys: Sys, c: CallId, unary: bool, rs: seq<Request>, after: Sys)
    requires Safe(cfg, sys) && Busy(sys) && Tidy(cfg, sys) && Clean(cfg, sys) && Opens(cfg, sys, c, unary, rs, after)
    requires !SecondCall(sys, c, rs) && !LeavesOlder(cfg, sys, c, unary, rs)
    ensures Safe(cfg, after) && Busy(after) && Tidy(cfg, after)
  {
    OpensState(cfg, sys, c, unary, rs, after);
    AdmittedTidy(cfg, sys, c, unary, rs);
  }

  /** An accepted batch can be continued in order to a state in which the record is behind a key that was averaged and
      completed only when it is not harmless, and always then if the others can go on. */
  lemma GoesBackExactlyWhen(cfg: Config, steps: seq<Step>, sys: Sys, c: CallId, unary: bool, rs: seq<Request>,
                            after: Sys, fill: Key -> Group)
    requires WentWell(cfg, steps, sys) && Opens(cfg, sys, c, unary, rs, after)
    ensures (exists k1, k2, back, older :: GoesBack(cfg, true, after, k1, k2, back, older)) ==>
              SecondCall(sys, c, rs) || LeavesOlder(cfg, sys, c, unary, rs)
    ensures OthersCanGoOn(cfg, after, c.worker, rs, fill) ==>
              (SecondCall(sys, c, rs) || LeavesOlder(cfg, sys, c, unary, rs) <==>
               exists k1, k2, back, older :: GoesBack(cfg, true, after, k1, k2, back, older))
  {
    if SecondCall(sys, c, rs) || LeavesOlder(cfg, sys, c, unary, rs) {
      if OthersCanGoOn(cfg, after, c.worker, rs, fill) {
        var f, k1, k2, back, older, again, end := UndisciplinedMovesBack(cfg, steps, sys, c, unary, rs, after, fill);
      }
    } else {
      WellRunState(cfg, steps, sys);
      HarmlessStays(cfg, sys, c, unary, rs, after);
      forall k1, k2, back, older ensures !GoesBack(cfg, true, after, k1, k2, back, older) {
        TidyNeverBack(cfg, after, k1, k2, back, older);
      }
    }
  }

  // ---------- an example in every job ----------

  /** Rounds 2 and 1 of one layer or group, in this order. */
  function NewestFirst(id: string, g: Group): (rs: seq<Request>)
    ensures Keys(rs) == {Key(id, 1), Key(id, 2)} && DistinctKeys(rs) && |rs| == 2
    ensures rs[0] == Request(Key(id, 2), g) && rs[1] == Request(Key(id, 1), g)
  {
    var rs := [Request(Key(id, 2), g), Request(Key(id, 1), g)];
    assert rs[0] in rs && rs[1] in rs;
    rs
  }

  /** All Workers have sent g. */
  function FromAll(cfg: Config, g: Group): map<Worker, Group> {
    map w | w in cfg.workers :: g
  }

  lemma FirstAccepted(cfg: Config, w: Worker, id: string, g: Group)
    requires cfg.wellFormed(g)
    ensures Accepted(cfg, INIT.svc, w, NewestFirst(id, g)) == 2
  {
    var rs := NewestFirst(id, g);
    NotEarlier(rs, 0);
    NotEarlier(rs, 1);
    assert RejectionOf(cfg, INIT.svc, w, rs, 0).None? && RejectionOf(cfg, INIT.svc, w, rs, 1).None?;
  }

  lemma OneSent(cfg: Config, w: Worker, g: Group)
    requires w in cfg.workers && cfg.average(FromAll(cfg, g)).Average?
    ensures var r := Settle(cfg, Round(map[w := g], None, None, 1));
            r.err.None? && r.submissions == map[w := g] && Completed(cfg, r, g) == FromAll(cfg, g)
  {
    var r := Round(map[w := g], None, None, 1);
    if |r.submissions| == |cfg.workers| {
      FullSet({w}, cfg.workers);
      assert FromAll(cfg, g) == map[w := g];
    }
  }

  lemma FirstRoundsOf(cfg: Config, c: CallId, unary: bool, id: string, g: Group)
    ensures var after := Admitted(cfg, INIT, c, unary, NewestFirst(id, g));
            && after.svc.rounds.Keys == {Key(id, 1), Key(id, 2)}
            && forall k | k in after.svc.rounds ::
                 after.svc.rounds[k] == Settle(cfg, Round(map[c.worker := g], None, None, 1))
  {
    var rs := NewestFirst(id, g);
    GroupForKey(rs, 0);
    GroupForKey(rs, 1);
  }

  lemma FirstCanGoOn(cfg: Config, c: CallId, unary: bool, id: string, g: Group, after: Sys, k: Key)
    requires c.worker in cfg.workers && cfg.wellFormed(g) && cfg.average(FromAll(cfg, g)).Average?
    requires after == Admitted(cfg, INIT, c, unary, NewestFirst(id, g)) && k in after.svc.rounds
    ensures CanGoOn(cfg, after, k, g) && after.svc.rounds[k].err.None?
  {
    FirstRoundsOf(cfg, c, unary, id, g);
    OneSent(cfg, c.worker, g);
    AdmittedKeeps(cfg, INIT, c, unary, NewestFirst(id, g));
    forall v | v in Missing(cfg, Lookup(after.svc, k)) ensures MaySend(after, v, k) {
      assert v != c.worker && Sent(after, v) == {};
    }
  }

  lemma FirstBehind(cfg: Config, c: CallId, unary: bool, id: string, g: Group)
    ensures LeavesOlder(cfg, INIT, c, unary, NewestFirst(id, g))
  {
    var rs := NewestFirst(id, g);
    var k1, k2 := Key(id, 1), Key(id, 2);
    assert Order(rs)[1] == k1;
    assert Behind(cfg, INIT, c, unary, rs, k1, k2);
  }

  lemma OnlyTwoNewest(cfg: Config, sys: Sys, id: string)
    requires forall w, h | h in Sent(sys, w) :: h in {Key(id, 1), Key(id, 2)}
    requires forall d | d in sys.calls :: sys.calls[d].remaining == {Key(id, 1), Key(id, 2)}
    ensures Newest(cfg, sys, Key(id, 1), Key(id, 2))
  {
  }

  lemma FirstNewest(cfg: Config, c: CallId, unary: bool, id: string, g: Group)
    ensures Newest(cfg, Admitted(cfg, INIT, c, unary, NewestFirst(id, g)), Key(id, 1), Key(id, 2))
  {
    AdmittedKeeps(cfg, INIT, c, unary, NewestFirst(id, g));
    OnlyTwoNewest(cfg, Admitted(cfg, INIT, c, unary, NewestFirst(id, g)), id);
  }

  /** For any Worker of any job: it opens rounds 2 and 1 of a layer or group in one call, all others send theirs in
      order, and the record ends at round 1 although round 2 was completed, which is then averaged again. */
  lemma MovesBackExample(cfg: Config, c: CallId, unary: bool, id: string, g: Group, after: Sys)
    returns (back: seq<Step>, older: Sys, again: seq<Step>, end: Sys)
    requires c.worker in cfg.workers && cfg.wellFormed(g) && cfg.average(FromAll(cfg, g)).Average?
    requires after == Opened(cfg, INIT, c, unary, NewestFirst(id, g))
    ensures GoesBack(cfg, true, after, Key(id, 1), Key(id, 2), back, older)
    ensures AveragesTwice(cfg, true, older, again, end)
  {
    var rs := NewestFirst(id, g);
    FirstAccepted(cfg, c.worker, id, g);
    OpenedWhole(cfg, INIT, c, unary, rs);
    forall k | k in after.svc.rounds ensures CanGoOn(cfg, after, k, g) && after.svc.rounds[k].err.None? {
      FirstCanGoOn(cfg, c, unary, id, g, after, k);
    }
    FirstBehind(cfg, c, unary, id, g);
    var f, k1, k2;
    f, k1, k2, back, older, again, end := UndisciplinedMovesBack(cfg, [], INIT, c, unary, rs, after, (k: Key) => g);
    OnlyNew(cfg, c, unary, id, g, after, f, k1, k2);
    FirstNewest(cfg, c, unary, id, g);
  }

  lemma OnlyNew(cfg: Config, c: CallId, unary: bool, id: string, g: Group, after: Sys, f: CallId, k1: Key, k2: Key)
    requires after == Admitted(cfg, INIT, c, unary, NewestFirst(id, g))
    requires Culprit(after, c.worker, NewestFirst(id, g), f, k1, k2)
    ensures k1 == Key(id, 1) && k2 == Key(id, 2)
  {
    FirstRoundsOf(cfg, c, unary, id, g);
  }
}
