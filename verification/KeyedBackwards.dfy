/** What happens to the keyed barrier when two rounds of one layer or group are open at the same time: the older one can
    be left after the newer one. Then the record of the latest completed round moves back, and the newer key, although
    averaged, is accepted and averaged again. */
module KeyedBackwards {
  import opened Wrappers
  import opened Gradients
  import opened KeyedRounds
  import opened KeyedRuns
  import opened KeyedOrder

  // ---------- pieces of runs ----------

  /** The run is possible and ends there; if it has to be orderly, every batch in it keeps the order. */
  ghost predicate Reaches(cfg: Config, orderly: bool, sys: Sys, steps: seq<Step>, end: Sys)
    decreases steps
  {
    if steps == [] then sys == end
    else
      && Enabled(cfg, sys, steps[0]) && (orderly ==> StepDisciplined(sys, steps[0]))
      && Reaches(cfg, orderly, Next(cfg, sys, steps[0]), steps[1..], end)
  }

  lemma {:induction false} ReachesIs(cfg: Config, orderly: bool, sys: Sys, steps: seq<Step>, end: Sys)
    requires Reaches(cfg, orderly, sys, steps, end)
    ensures ValidRun(cfg, sys, steps) && After(cfg, sys, steps) == end
    ensures orderly ==> DisciplinedRun(cfg, sys, steps)
    decreases steps
  {
    if steps != [] {
      ReachesIs(cfg, orderly, Next(cfg, sys, steps[0]), steps[1..], end);
    }
  }

  lemma NoStep(cfg: Config, orderly: bool, sys: Sys)
    ensures Reaches(cfg, orderly, sys, [], sys)
  {
  }

  lemma OneStep(cfg: Config, orderly: bool, sys: Sys, step: Step)
    requires Enabled(cfg, sys, step) && (orderly ==> StepDisciplined(sys, step))
    ensures Reaches(cfg, orderly, sys, [step], Next(cfg, sys, step))
  {
    assert [step][1..] == [];
    NoStep(cfg, orderly, Next(cfg, sys, step));
  }

  lemma FirstStep(cfg: Config, orderly: bool, sys: Sys, steps: seq<Step>, end: Sys) returns (next: Sys)
    requires steps != [] && Reaches(cfg, orderly, sys, steps, end)
    ensures Reaches(cfg, orderly, sys, [steps[0]], next) && Reaches(cfg, orderly, next, steps[1..], end)
  {
    next := Next(cfg, sys, steps[0]);
    OneStep(cfg, orderly, sys, steps[0]);
  }

  lemma StepFirst(cfg: Config, orderly: bool, sys: Sys, step: Step, next: Sys, more: seq<Step>, end: Sys)
    requires Reaches(cfg, orderly, sys, [step], next) && Reaches(cfg, orderly, next, more, end)
    ensures Reaches(cfg, orderly, sys, [step] + more, end)
  {
    assert [step][1..] == [];
    assert ([step] + more)[1..] == more;
  }

  lemma NothingFirst(cfg: Config, orderly: bool, sys: Sys, steps: seq<Step>, mid: Sys, more: seq<Step>)
    requires steps == [] && Reaches(cfg, orderly, sys, steps, mid)
    ensures mid == sys && steps + more == more
  {
    assert steps + more == more;
  }

  lemma SplitFirst<T>(steps: seq<T>, more: seq<T>)
    requires steps != []
    ensures steps + more == [steps[0]] + (steps[1..] + more)
  {
  }

  lemma {:induction false} Then(cfg: Config, orderly: bool, sys: Sys, steps: seq<Step>, mid: Sys, more: seq<Step>, end: Sys)
    requires Reaches(cfg, orderly, sys, steps, mid) && Reaches(cfg, orderly, mid, more, end)
    ensures Reaches(cfg, orderly, sys, steps + more, end)
    decreases |steps|
  {
    if steps == [] {
      NothingFirst(cfg, orderly, sys, steps, mid, more);
    } else {
      var next := FirstStep(cfg, orderly, sys, steps, mid);
      Then(cfg, orderly, next, steps[1..], mid, more, end);
      StepFirst(cfg, orderly, sys, steps[0], next, steps[1..] + more, end);
      SplitFirst(steps, more);
    }
  }

  // ---------- a Worker that is missing submits ----------

  lemma {:induction false} Above(calls: set<CallId>) returns (n: nat)
    ensures forall c | c in calls :: c.number < n
    decreases |calls|
  {
    if calls == {} {
      n := 0;
    } else {
      var c :| c in calls;
      var m := Above(calls - {c});
      n := if c.number < m then m else c.number + 1;
      assert forall d | d in calls :: d in calls - {c} || d == c;
    }
  }

  lemma NewCall(sys: Sys, w: Worker) returns (c: CallId)
    ensures c.worker == w && c !in sys.calls
  {
    var n := Above(sys.calls.Keys);
    c := CallId(w, n);
    assert c in sys.calls.Keys ==> c.number < n;
  }

  ghost predicate Fresh(s: Service, k: Key) {
    k.round > 0 && (k.id in s.completed ==> s.completed[k.id] < k.round)
  }

  lemma OneRequest(k: Key, g: Group)
    ensures var rs := [Request(k, g)];
            && Keys(rs) == {k} && Keys(rs[..0]) == {} && Order(rs) == [k] && GroupFor(rs, k) == g
  {
    var rs := [Request(k, g)];
    assert rs[0] in rs;
    assert rs[..0] == [];
    assert Order(rs)[0] == k;
  }

  lemma OneAccepted(cfg: Config, s: Service, w: Worker, k: Key, g: Group)
    requires cfg.wellFormed(g) && Fresh(s, k) && w !in Lookup(s, k).submissions
    ensures Accepted(cfg, s, w, [Request(k, g)]) == 1
  {
    OneRequest(k, g);
    assert RejectionOf(cfg, s, w, [Request(k, g)], 0).None?;
  }

  /** The round after Worker w has joined, averaged if that made it full. */
  function WithSubmission(cfg: Config, s: Service, w: Worker, k: Key, g: Group): Round {
    Settle(cfg, Join(Lookup(s, k), w, g))
  }

  lemma OneSettled(cfg: Config, s: Service, w: Worker, k: Key, g: Group)
    ensures var rs := [Request(k, g)];
            && Settled(cfg, Inserted(s, w, rs), Keys(rs)) == s.(rounds := s.rounds[k := WithSubmission(cfg, s, w, k, g)])
            && Inserted(s, w, rs).rounds == s.rounds[k := Join(Lookup(s, k), w, g)]
  {
    OneRequest(k, g);
    OneInserted(s, w, k, g);
    SettledOne(cfg, s, k, Join(Lookup(s, k), w, g));
  }

  lemma OneInserted(s: Service, w: Worker, k: Key, g: Group)
    ensures Inserted(s, w, [Request(k, g)]) == s.(rounds := s.rounds[k := Join(Lookup(s, k), w, g)])
  {
    OneRequest(k, g);
    assert Inserted(s, w, [Request(k, g)]).rounds == s.rounds[k := Join(Lookup(s, k), w, g)];
  }

  lemma SettledOne(cfg: Config, s: Service, k: Key, r: Round)
    ensures Settled(cfg, s.(rounds := s.rounds[k := r]), {k}) == s.(rounds := s.rounds[k := Settle(cfg, r)])
  {
    assert Settled(cfg, s.(rounds := s.rounds[k := r]), {k}).rounds == s.rounds[k := Settle(cfg, r)];
  }

  lemma OneAveraging(cfg: Config, s: Service, k: Key, g: Group)
    requires k in s.rounds
    ensures NewAveragings(cfg, s, [Request(k, g)]) ==
            if |s.rounds[k].submissions| == |cfg.workers| && !s.rounds[k].Ready() then [Averaging(k, s.rounds[k].submissions)]
            else []
  {
    assert [Request(k, g)][1..] == [];
    assert NewAveragings(cfg, s, [Request(k, g)][1..]) == [];
  }

  /** Worker w can open round k alone and keep the order: it has no unfinished call on the layer or group, and has sent
      nothing newer of it. */
  ghost predicate MaySend(sys: Sys, w: Worker, k: Key) {
    && (forall d, h | d in sys.calls && d.worker == w && h in sys.calls[d].remaining :: h.id != k.id)
    && (forall h | h in Sent(sys, w) && h.id == k.id :: h.round <= k.round)
  }

  lemma OneInOrder(sys: Sys, c: CallId, k: Key, g: Group)
    requires MaySend(sys, c.worker, k)
    ensures StepDisciplined(sys, Open(c, true, [Request(k, g)]))
  {
    OneRequest(k, g);
  }

  /** What more submissions to round k leave as it was. */
  ghost predicate Grown(a: Sys, b: Sys, k: Key) {
    GrownService(a, b, k) && GrownCalls(a, b, k)
  }

  ghost predicate GrownService(a: Sys, b: Sys, k: Key) {
    && b.svc.completed == a.svc.completed && b.leaked == a.leaked && a.averagings <= b.averagings
    && (forall k2 | k2 != k :: k2 in b.svc.rounds <==> k2 in a.svc.rounds)
    && (forall k2 | k2 != k && k2 in a.svc.rounds :: b.svc.rounds[k2] == a.svc.rounds[k2])
  }

  ghost predicate GrownCalls(a: Sys, b: Sys, k: Key) {
    && (forall d | d in a.calls :: d in b.calls && SameRounds(b.calls[d], a.calls[d]))
    && (forall d | d in b.calls && d !in a.calls :: SameRounds(b.calls[d], Call(true, [k], {k}, false)))
    && (forall w :: Sent(b, w) <= Sent(a, w) + {k})
  }

  lemma GrownTwice(a: Sys, b: Sys, c: Sys, k: Key)
    requires Grown(a, b, k) && Grown(b, c, k)
    ensures Grown(a, c, k)
  {
  }

  predicate NoneAsleep(sys: Sys) {
    forall d | d in sys.calls :: !sys.calls[d].asleep
  }

  /** Worker w has opened call c for round k alone, and its group was accepted. */
  ghost predicate JoinedBy(cfg: Config, sys: Sys, after: Sys, w: Worker, k: Key, g: Group, c: CallId) {
    JoinedRound(cfg, sys, after, w, k, g) && JoinedCall(sys, after, w, k, c)
  }

  ghost predicate JoinedRound(cfg: Config, sys: Sys, after: Sys, w: Worker, k: Key, g: Group) {
    && k in after.svc.rounds && after.svc.rounds[k] == WithSubmission(cfg, sys.svc, w, k, g)
    && after.svc.completed == sys.svc.completed
    && var joined := Join(Lookup(sys.svc, k), w, g);
       |joined.submissions| == |cfg.workers| && !joined.Ready() ==>
         after.averagings == sys.averagings + [Averaging(k, joined.submissions)]
  }

  ghost predicate JoinedCall(sys: Sys, after: Sys, w: Worker, k: Key, c: CallId) {
    && c in after.calls && c !in sys.calls && SameRounds(after.calls[c], Call(true, [k], {k}, false)) && NoneAsleep(after)
    && c.worker == w && after.calls.Keys == sys.calls.Keys + {c} && after.sent == sys.sent[w := Sent(sys, w) + {k}]
    && forall d | d in sys.calls :: SameRounds(after.calls[d], sys.calls[d])
  }

  lemma OneEntered(calls: map<CallId, Call>, c: CallId, k: Key, g: Group)
    requires c !in calls
    ensures var after := Entered(calls, c, true, [Request(k, g)]);
            && after.Keys == calls.Keys + {c} && after[c] == Call(true, [k], {k}, false)
            && forall d | d in calls :: SameRounds(after[d], calls[d]) && !after[d].asleep
  {
    OneRequest(k, g);
  }

  lemma AdmittedGrows(cfg: Config, sys: Sys, c: CallId, k: Key, g: Group)
    requires c !in sys.calls
    ensures Grown(sys, Admitted(cfg, sys, c, true, [Request(k, g)]), k)
  {
    AdmittedCallsGrow(cfg, sys, c, k, g);
    OneSettled(cfg, sys.svc, c.worker, k, g);
  }

  lemma AdmittedCallsGrow(cfg: Config, sys: Sys, c: CallId, k: Key, g: Group)
    requires c !in sys.calls
    ensures GrownCalls(sys, Admitted(cfg, sys, c, true, [Request(k, g)]), k)
  {
    OneRequest(k, g);
    OneEntered(sys.calls, c, k, g);
  }

  lemma AdmittedJoins(cfg: Config, sys: Sys, c: CallId, k: Key, g: Group)
    requires c !in sys.calls
    ensures JoinedBy(cfg, sys, Admitted(cfg, sys, c, true, [Request(k, g)]), c.worker, k, g, c)
  {
    OneRequest(k, g);
    OneEntered(sys.calls, c, k, g);
    OneSettled(cfg, sys.svc, c.worker, k, g);
    OneAveraging(cfg, Inserted(sys.svc, c.worker, [Request(k, g)]), k, g);
  }

  /** One missing Worker opens a unary call for round k alone. */
  lemma OpenOne(cfg: Config, orderly: bool, sys: Sys, w: Worker, k: Key, g: Group)
    returns (steps: seq<Step>, after: Sys, c: CallId)
    requires Safe(cfg, sys) && Busy(sys) && w in cfg.workers && (orderly ==> MaySend(sys, w, k))
    requires cfg.wellFormed(g) && Fresh(sys.svc, k) && w !in Lookup(sys.svc, k).submissions
    ensures Reaches(cfg, orderly, sys, steps, after) && Safe(cfg, after) && Busy(after)
    ensures Grown(sys, after, k) && JoinedBy(cfg, sys, after, w, k, g, c)
  {
    c := NewCall(sys, w);
    var rs := [Request(k, g)];
    var step := Open(c, true, rs);
    if orderly {
      OneInOrder(sys, c, k, g);
    }
    OneAccepted(cfg, sys.svc, w, k, g);
    OpenedWhole(cfg, sys, c, true, rs);
    AdmittedGrows(cfg, sys, c, k, g);
    AdmittedJoins(cfg, sys, c, k, g);
    OneStep(cfg, orderly, sys, step);
    NextSafe(cfg, sys, step);
    NextBusy(cfg, sys, step);
    steps := [step];
    after := Next(cfg, sys, step);
  }

  /** The Workers that have not submitted to a round. */
  function Missing(cfg: Config, r: Round): set<Worker> {
    cfg.workers - r.submissions.Keys
  }

  /** The round's submissions once every missing Worker has sent g. */
  function Completed(cfg: Config, r: Round, g: Group): map<Worker, Group> {
    r.submissions + (map w | w in Missing(cfg, r) :: g)
  }

  lemma NotFull(cfg: Config, r: Round)
    requires r.submissions.Keys <= cfg.workers
    ensures |r.submissions| == |cfg.workers| <==> Missing(cfg, r) == {}
  {
    assert |r.submissions.Keys| == |r.submissions|;
    if |r.submissions| == |cfg.workers| {
      FullSet(r.submissions.Keys, cfg.workers);
    }
    if Missing(cfg, r) == {} {
      assert forall w | w in cfg.workers :: w in r.submissions.Keys || w in Missing(cfg, r);
      assert r.submissions.Keys == cfg.workers;
    }
  }

  lemma NoneMissing(cfg: Config, r: Round, g: Group)
    requires Missing(cfg, r) == {}
    ensures Completed(cfg, r, g) == r.submissions
  {
  }

  /** Round k has been averaged over all Workers, those that were missing with g, and a call still holds it. */
  ghost predicate Filled(cfg: Config, sys: Sys, after: Sys, k: Key, g: Group) {
    var full := Completed(cfg, Lookup(sys.svc, k), g);
    && k in after.svc.rounds
    && after.svc.rounds[k].response == AnswerOf(cfg, full) && after.svc.rounds[k].err == ErrorOf(cfg, full)
    && |after.averagings| > |sys.averagings| && after.averagings[|after.averagings| - 1].key == k
    && Holders(after.calls, k) != {}
  }

  lemma JoinedMissing(cfg: Config, r: Round, w: Worker, g: Group)
    requires w in Missing(cfg, r)
    ensures Missing(cfg, Join(r, w, g)) == Missing(cfg, r) - {w}
    ensures Completed(cfg, Join(r, w, g), g) == Completed(cfg, r, g)
  {
  }

  lemma SettledFull(cfg: Config, r: Round)
    requires |r.submissions| == |cfg.workers| && !r.Ready()
    ensures Settle(cfg, r).response == AnswerOf(cfg, r.submissions) && Settle(cfg, r).err == ErrorOf(cfg, r.submissions)
  {
  }

  lemma LastJoined(cfg: Config, r: Round, w: Worker, g: Group)
    requires r.submissions.Keys <= cfg.workers && !r.Ready() && w in Missing(cfg, r)
    requires Missing(cfg, Join(r, w, g)) == {}
    ensures var joined, full := Join(r, w, g), Completed(cfg, r, g);
            && |joined.submissions| == |cfg.workers| && !joined.Ready()
            && Settle(cfg, joined).response == AnswerOf(cfg, full) && Settle(cfg, joined).err == ErrorOf(cfg, full)
  {
    var joined := Join(r, w, g);
    NotFull(cfg, joined);
    JoinedMissing(cfg, r, w, g);
    NoneMissing(cfg, joined, g);
    SettledFull(cfg, joined);
  }

  lemma LastFills(cfg: Config, sys: Sys, w: Worker, k: Key, g: Group, after: Sys, c: CallId)
    requires var r := Lookup(sys.svc, k);
             && r.submissions.Keys <= cfg.workers && !r.Ready() && w in Missing(cfg, r)
             && Missing(cfg, Join(r, w, g)) == {}
    requires JoinedBy(cfg, sys, after, w, k, g, c)
    ensures Filled(cfg, sys, after, k, g)
  {
    LastJoined(cfg, Lookup(sys.svc, k), w, g);
    assert c in Holders(after.calls, k);
  }

  lemma NotLast(cfg: Config, s: Service, w: Worker, k: Key, g: Group)
    requires var r := Lookup(s, k);
             && r.submissions.Keys <= cfg.workers && !r.Ready() && w in Missing(cfg, r)
             && Missing(cfg, Join(r, w, g)) != {}
    ensures WithSubmission(cfg, s, w, k, g) == Join(Lookup(s, k), w, g)
  {
    NotFull(cfg, Join(Lookup(s, k), w, g));
  }

  ghost predicate MissingMaySend(cfg: Config, sys: Sys, k: Key) {
    forall w | w in Missing(cfg, Lookup(sys.svc, k)) :: MaySend(sys, w, k)
  }

  lemma OtherMaySend(sys: Sys, after: Sys, w: Worker, v: Worker, k: Key, c: CallId)
    requires v != w && JoinedCall(sys, after, w, k, c) && MaySend(sys, v, k)
    ensures MaySend(after, v, k)
  {
    assert Sent(after, v) == Sent(sys, v);
    assert forall d | d in after.calls && d.worker == v :: d in sys.calls;
  }

  lemma StillMaySend(cfg: Config, sys: Sys, after: Sys, w: Worker, k: Key, c: CallId)
    requires MissingMaySend(cfg, sys, k) && JoinedCall(sys, after, w, k, c)
    requires Missing(cfg, Lookup(after.svc, k)) == Missing(cfg, Lookup(sys.svc, k)) - {w}
    ensures MissingMaySend(cfg, after, k)
  {
    forall v | v in Missing(cfg, Lookup(after.svc, k)) ensures MaySend(after, v, k) {
      assert v in Missing(cfg, Lookup(sys.svc, k));
      OtherMaySend(sys, after, w, v, k, c);
    }
  }

  /** Round k can still be filled. */
  ghost predicate Fillable(cfg: Config, sys: Sys, k: Key) {
    && Fresh(sys.svc, k)
    && var r := Lookup(sys.svc, k); r.submissions.Keys <= cfg.workers && !r.Ready() && Missing(cfg, r) != {}
  }

  lemma MoreToFill(cfg: Config, sys: Sys, w: Worker, k: Key, g: Group, after: Sys)
    requires Fillable(cfg, sys, k) && w in Missing(cfg, Lookup(sys.svc, k))
    requires JoinedRound(cfg, sys, after, w, k, g)
    requires Missing(cfg, Join(Lookup(sys.svc, k), w, g)) != {}
    ensures Fillable(cfg, after, k)
    ensures Missing(cfg, Lookup(after.svc, k)) == Missing(cfg, Lookup(sys.svc, k)) - {w}
    ensures Completed(cfg, Lookup(after.svc, k), g) == Completed(cfg, Lookup(sys.svc, k), g)
  {
    NotLast(cfg, sys.svc, w, k, g);
    JoinedMissing(cfg, Lookup(sys.svc, k), w, g);
  }

  /** All missing Workers submit to round k. */
  lemma {:induction false} FillRound(cfg: Config, orderly: bool, sys: Sys, k: Key, g: Group)
    returns (steps: seq<Step>, after: Sys)
    requires Safe(cfg, sys) && Busy(sys) && cfg.wellFormed(g) && Fillable(cfg, sys, k)
    requires orderly ==> MissingMaySend(cfg, sys, k)
    ensures Reaches(cfg, orderly, sys, steps, after) && Safe(cfg, after) && Busy(after) && Grown(sys, after, k)
    ensures Filled(cfg, sys, after, k, g) && NoneAsleep(after)
    decreases |Missing(cfg, Lookup(sys.svc, k))|
  {
    var w :| w in Missing(cfg, Lookup(sys.svc, k));
    var c;
    steps, after, c := OpenOne(cfg, orderly, sys, w, k, g);
    if Missing(cfg, Join(Lookup(sys.svc, k), w, g)) == {} {
      LastFills(cfg, sys, w, k, g, after, c);
    } else {
      MoreToFill(cfg, sys, w, k, g, after);
      if orderly {
        StillMaySend(cfg, sys, after, w, k, c);
      }
      var more, end := FillRound(cfg, orderly, after, k, g);
      Then(cfg, orderly, sys, steps, after, more, end);
      GrownTwice(sys, after, end, k);
      steps, after := steps + more, end;
    }
  }

  function AnswerOf(cfg: Config, submissions: map<Worker, Group>): Option<Group> {
    match cfg.average(submissions)
    case Average(g) => Some(g)
    case Failure(m) => None
  }

  function ErrorOf(cfg: Config, submissions: map<Worker, Group>): Option<string> {
    match cfg.average(submissions)
    case Average(g) => None
    case Failure(m) => Some(m)
  }

  // ---------- everybody can leave after an abort ----------

  ghost predicate Awake(sys: Sys) {
    && (forall k | k in sys.svc.rounds :: sys.svc.rounds[k].Ready())
    && (forall c | c in sys.calls :: !sys.calls[c].asleep)
  }

  /** Nothing but errors and sleep has changed. */
  ghost predicate Woke(a: Sys, b: Sys) {
    && b.svc.completed == a.svc.completed && b.svc.rounds.Keys == a.svc.rounds.Keys
    && (forall k | k in a.svc.rounds :: b.svc.rounds[k].response == a.svc.rounds[k].response)
    && b.leaked == a.leaked && b.averagings == a.averagings && b.sent == a.sent
    && b.calls.Keys == a.calls.Keys && (forall c | c in a.calls :: SameRounds(b.calls[c], a.calls[c]))
  }

  /** An abort that finds receivers. */
  lemma AbortWakes(cfg: Config, orderly: bool, sys: Sys, reason: string) returns (steps: seq<Step>, after: Sys)
    requires Safe(cfg, sys) && Busy(sys) && HasReceivers(sys.svc)
    ensures Reaches(cfg, orderly, sys, steps, after) && Safe(cfg, after) && Busy(after) && Awake(after) && Woke(sys, after)
  {
    var step := Abort(reason);
    OneStep(cfg, orderly, sys, step);
    NextSafe(cfg, sys, step);
    NextBusy(cfg, sys, step);
    steps, after := [step], Next(cfg, sys, step);
  }

  lemma {:induction false} Listing(ks: set<Key>) returns (order: seq<Key>)
    ensures Permutes(order, ks)
    decreases |ks|
  {
    if ks == {} {
      order := [];
    } else {
      var k :| k in ks;
      var rest := Listing(ks - {k});
      order := [k] + rest;
      assert forall k2 | k2 in ks :: k2 == k || k2 in ks - {k};
    }
  }

  /** A call leaves all its rounds and is gone. */
  lemma LeaveOne(cfg: Config, sys: Sys, c: CallId) returns (step: Step, order: seq<Key>, after: Sys)
    requires Safe(cfg, sys) && Awake(sys) && c in sys.calls
    ensures Enabled(cfg, sys, step) && after == Next(cfg, sys, step) && !step.Open?
    ensures Permutes(order, sys.calls[c].remaining) && Releasable(sys.svc, order)
    ensures after.svc == ReleasedAll(sys.svc, order) && after.leaked == sys.leaked && after.averagings == sys.averagings
    ensures after.calls == sys.calls - {c} && after.sent == sys.sent
  {
    assert CallSafe(cfg, sys, c);
    if sys.calls[c].unary {
      order := sys.calls[c].order;
      step := Return(c);
      ReturnLeaves(cfg, sys, c);
    } else {
      order := Listing(sys.calls[c].remaining);
      step := Quit(c, order);
      QuitLeaves(cfg, sys, c, order);
    }
    after := Next(cfg, sys, step);
  }

  lemma ReturnLeaves(cfg: Config, sys: Sys, c: CallId)
    requires UnaryIntact(sys) && c in sys.calls && sys.calls[c].unary && !sys.calls[c].asleep
    requires forall k | k in sys.calls[c].remaining :: ReadyAt(sys.svc, k)
    ensures Enabled(cfg, sys, Return(c)) && Permutes(sys.calls[c].order, sys.calls[c].remaining)
    ensures Releasable(sys.svc, sys.calls[c].order)
    ensures var after := Next(cfg, sys, Return(c));
            && after.svc == ReleasedAll(sys.svc, sys.calls[c].order) && after.leaked == sys.leaked
            && after.averagings == sys.averagings && after.sent == sys.sent && after.calls == sys.calls - {c}
  {
    assert CanProceed(sys.svc, sys.calls[c]);
    LeftAllIs(sys, c, sys.calls[c].order);
    assert Next(cfg, sys, Return(c)).calls == sys.calls - {c};
  }

  lemma QuitLeaves(cfg: Config, sys: Sys, c: CallId, order: seq<Key>)
    requires c in sys.calls && !sys.calls[c].unary && !sys.calls[c].asleep && Permutes(order, sys.calls[c].remaining)
    requires forall k | k in sys.calls[c].remaining :: k in sys.svc.rounds
    ensures Enabled(cfg, sys, Quit(c, order)) && Releasable(sys.svc, order)
    ensures var after := Next(cfg, sys, Quit(c, order));
            && after.svc == ReleasedAll(sys.svc, order) && after.leaked == sys.leaked
            && after.averagings == sys.averagings && after.sent == sys.sent && after.calls == sys.calls - {c}
  {
    LeftAllIs(sys, c, order);
    assert Next(cfg, sys, Quit(c, order)).calls == sys.calls - {c};
  }

  /** No other key of the same layer or group. */
  predicate OneOfId(ks: set<Key>, k: Key) {
    forall k2 | k2 in ks && k2.id == k.id :: k2 == k
  }

  /** What leaving the rounds in `order` does to the keys of one layer or group, if k is the only such key in it. */
  ghost predicate LeavesAlone(s: Service, after: Service, k: Key, left: bool) {
    && (forall k2: Key | k2.id == k.id && k2 != k :: k2 in after.rounds <==> k2 in s.rounds)
    && (forall k2: Key | k2.id == k.id && k2 != k && k2 in s.rounds :: after.rounds[k2] == s.rounds[k2])
    && k in s.rounds
    && var r := s.rounds[k];
       if left && r.waiting == 1 && r.response.Some? then
         k !in after.rounds && k.id in after.completed && after.completed[k.id] == k.round
       else
         && k in after.rounds && after.rounds[k] == (if left then r.(waiting := r.waiting - 1) else r)
         && (k.id in after.completed <==> k.id in s.completed)
         && (k.id in s.completed ==> after.completed[k.id] == s.completed[k.id])
  }

  lemma {:induction false} ReleasedAlone(s: Service, order: seq<Key>, k: Key)
    requires Releasable(s, order) && k in s.rounds && (forall k2 | k2 in order && k2.id == k.id :: k2 == k)
    ensures LeavesAlone(s, ReleasedAll(s, order), k, k in order)
    decreases order
  {
    if order != [] {
      assert forall k2 | k2 in order[1..] :: k2 in order && k2 != order[0];
      var mid := Released(s, order[0]);
      assert forall k2 | k2 in order :: k2 == order[0] || k2 in order[1..];
      if order[0] == k {
        OthersReleased(mid, order[1..], k.id);
        LeavesThen(s, mid, ReleasedAll(s, order), k);
      } else {
        ReleasedAlone(mid, order[1..], k);
      }
    }
  }

  lemma LeavesThen(s: Service, mid: Service, after: Service, k: Key)
    requires k in s.rounds && mid == Released(s, k)
    requires forall k2: Key | k2.id == k.id :: k2 in after.rounds <==> k2 in mid.rounds
    requires forall k2: Key | k2.id == k.id && k2 in mid.rounds :: after.rounds[k2] == mid.rounds[k2]
    requires k.id in after.completed <==> k.id in mid.completed
    requires k.id in mid.completed ==> after.completed[k.id] == mid.completed[k.id]
    ensures LeavesAlone(s, after, k, true)
  {
  }

  lemma {:induction false} OthersReleased(s: Service, order: seq<Key>, id: string)
    requires Releasable(s, order) && forall k2 | k2 in order :: k2.id != id
    ensures var after := ReleasedAll(s, order);
            && (forall k2: Key | k2.id == id :: k2 in after.rounds <==> k2 in s.rounds)
            && (forall k2: Key | k2.id == id && k2 in s.rounds :: after.rounds[k2] == s.rounds[k2])
            && (id in after.completed <==> id in s.completed)
            && (id in s.completed ==> after.completed[id] == s.completed[id])
    decreases order
  {
    if order != [] {
      assert forall k2 | k2 in order[1..] :: k2 in order && k2 != order[0];
      OthersReleased(Released(s, order[0]), order[1..], id);
    }
  }

  // ---------- all holders of one round leave ----------

  ghost predicate Drained(sys: Sys, after: Sys, k: Key, ds: set<CallId>) {
    && after.calls == sys.calls - ds && after.leaked == sys.leaked && after.averagings == sys.averagings
    && SameOthers(sys.svc, after.svc, k)
    && k in sys.svc.rounds
    && (if ds == Holders(sys.calls, k) then
          k !in after.svc.rounds && k.id in after.svc.completed && after.svc.completed[k.id] == k.round
        else k in after.svc.rounds && after.svc.rounds[k].response == sys.svc.rounds[k].response)
  }

  ghost predicate SameOthers(s: Service, after: Service, k: Key) {
    && (forall k2: Key | k2.id == k.id && k2 != k :: k2 in after.rounds <==> k2 in s.rounds)
    && (forall k2: Key | k2.id == k.id && k2 != k && k2 in s.rounds :: after.rounds[k2] == s.rounds[k2])
  }

  /** The state in which round k can be completed by its holders. */
  ghost predicate Drainable(cfg: Config, sys: Sys, k: Key) {
    && Safe(cfg, sys) && Busy(sys) && Awake(sys)
    && k in sys.svc.rounds && sys.svc.rounds[k].response.Some? && Leaked(sys, k) == 0
  }

  lemma LeavesHolding(cfg: Config, sys: Sys, k: Key, d: CallId) returns (step: Step, after: Sys)
    requires Drainable(cfg, sys, k) && d in Holders(sys.calls, k) && OneOfId(sys.calls[d].remaining, k)
    ensures Enabled(cfg, sys, step) && after == Next(cfg, sys, step)
    ensures Safe(cfg, after) && Busy(after) && Awake(after) && Drained(sys, after, k, {d})
  {
    var order;
    step, order, after := LeaveOne(cfg, sys, d);
    NextSafe(cfg, sys, step);
    NextBusy(cfg, sys, step);
    ReleasedKeeps(sys.svc, order);
    ReleasedAlone(sys.svc, order, k);
    OnlyHolder(cfg, sys, k, d);
  }

  /** The count is one exactly when there is no other holder. */
  lemma OnlyHolder(cfg: Config, sys: Sys, k: Key, d: CallId)
    requires Safe(cfg, sys) && k in sys.svc.rounds && Leaked(sys, k) == 0 && d in Holders(sys.calls, k)
    ensures sys.svc.rounds[k].waiting == 1 <==> {d} == Holders(sys.calls, k)
  {
    assert RoundSafe(cfg, sys, k);
    var others := Holders(sys.calls, k) - {d};
    assert Holders(sys.calls, k) == others + {d};
  }

  lemma {:induction false} Drain(cfg: Config, sys: Sys, k: Key, ds: set<CallId>) returns (steps: seq<Step>, after: Sys)
    requires Drainable(cfg, sys, k) && ds != {} && ds <= Holders(sys.calls, k)
    requires forall d | d in ds :: OneOfId(sys.calls[d].remaining, k)
    ensures Reaches(cfg, false, sys, steps, after) && Safe(cfg, after) && Busy(after) && Awake(after)
    ensures Drained(sys, after, k, ds)
    decreases |ds|
  {
    var d :| d in ds;
    var step, mid := LeavesHolding(cfg, sys, k, d);
    OneStep(cfg, false, sys, step);
    if ds == {d} {
      steps, after := [step], mid;
    } else {
      assert Holders(mid.calls, k) == Holders(sys.calls, k) - {d};
      var rest := ds - {d};
      var e :| e in ds && e != d;
      assert e in rest && e in Holders(sys.calls, k) && {d} != Holders(sys.calls, k);
      var more;
      more, after := Drain(cfg, mid, k, rest);
      Then(cfg, false, sys, [step], mid, more, after);
      steps := [step] + more;
      DrainedTwice(sys, mid, after, k, d, ds);
    }
  }

  lemma DrainedTwice(sys: Sys, mid: Sys, after: Sys, k: Key, d: CallId, ds: set<CallId>)
    requires d in ds && ds <= Holders(sys.calls, k) && {d} != Holders(sys.calls, k)
    requires Drained(sys, mid, k, {d}) && Drained(mid, after, k, ds - {d})
    ensures Drained(sys, after, k, ds)
  {
    assert Holders(mid.calls, k) == Holders(sys.calls, k) - {d};
    assert d in Holders(sys.calls, k) && ds == (ds - {d}) + {d};
    assert Holders(sys.calls, k) == Holders(mid.calls, k) + {d};
    assert sys.calls - ds == sys.calls - {d} - (ds - {d});
  }

  // ---------- two rounds of one layer or group are held ----------

  ghost predicate HoldersHoldOne(sys: Sys, k: Key) {
    forall d | d in Holders(sys.calls, k) :: OneOfId(sys.calls[d].remaining, k)
  }

  /** Round k has no error and no receiver of a rejected batch, and either it has been averaged and is held, or the
      Workers that are missing can still submit g and the averaging then succeeds. */
  ghost predicate Answerable(cfg: Config, sys: Sys, k: Key, g: Group) {
    && k in sys.svc.rounds && Leaked(sys, k) == 0
    && var r := sys.svc.rounds[k];
       && r.err.None?
       && (r.response.Some? ==> Holders(sys.calls, k) != {})
       && (r.response.None? ==>
             Missing(cfg, r) != {} && Fresh(sys.svc, k) && cfg.average(Completed(cfg, r, g)).Average?)
  }

  /** Nothing stands in the way of averaging round k and leaving it: it can be answered, and its calls hold no other
      round of its layer or group. */
  ghost predicate Completable(cfg: Config, sys: Sys, k: Key, g: Group) {
    Answerable(cfg, sys, k, g) && HoldersHoldOne(sys, k)
  }

  /** Round k has its response and waits to be left. */
  ghost predicate Answered(sys: Sys, k: Key) {
    k in sys.svc.rounds && Leaked(sys, k) == 0 && sys.svc.rounds[k].response.Some? && Holders(sys.calls, k) != {}
  }

  ghost predicate Delivering(sys: Sys, k: Key) {
    Answered(sys, k) && HoldersHoldOne(sys, k)
  }

  ghost predicate Averaged(sys: Sys, k: Key) {
    exists a | a in sys.averagings :: a.key == k
  }

  lemma GrownHolders(a: Sys, b: Sys, k: Key, k2: Key)
    requires Grown(a, b, k) && k2 != k
    ensures Holders(b.calls, k2) == Holders(a.calls, k2)
    ensures HoldersHoldOne(a, k2) ==> HoldersHoldOne(b, k2)
  {
    assert forall d | d in Holders(b.calls, k2) :: d in a.calls;
  }

  lemma GrownHoldOne(a: Sys, b: Sys, k: Key)
    requires Grown(a, b, k) && HoldersHoldOne(a, k)
    ensures HoldersHoldOne(b, k)
  {
    forall d | d in Holders(b.calls, k) ensures OneOfId(b.calls[d].remaining, k) {
      assert d in a.calls ==> d in Holders(a.calls, k);
    }
  }

  lemma GetsAnswer(cfg: Config, orderly: bool, sys: Sys, k: Key, g: Group) returns (steps: seq<Step>, after: Sys)
    requires Safe(cfg, sys) && Busy(sys) && cfg.wellFormed(g) && Answerable(cfg, sys, k, g)
    requires orderly ==> MissingMaySend(cfg, sys, k)
    ensures Reaches(cfg, orderly, sys, steps, after) && Safe(cfg, after) && Busy(after)
    ensures Grown(sys, after, k) && Answered(after, k) && Averaged(after, k) && k.round > 0
  {
    assert RoundSafe(cfg, sys, k);
    if sys.svc.rounds[k].response.Some? {
      NoStep(cfg, orderly, sys);
      steps, after := [], sys;
      assert Averaging(k, sys.svc.rounds[k].submissions) in sys.averagings;
    } else {
      steps, after := FillRound(cfg, orderly, sys, k, g);
      assert after.averagings[|after.averagings| - 1] in after.averagings;
    }
  }

  lemma StillAnswerable(cfg: Config, a: Sys, b: Sys, k: Key, k2: Key, g: Group)
    requires Grown(a, b, k) && k2 != k && Answerable(cfg, a, k2, g)
    ensures Answerable(cfg, b, k2, g)
  {
    GrownHolders(a, b, k, k2);
  }

  lemma StillAnswered(a: Sys, b: Sys, k: Key, k2: Key)
    requires Grown(a, b, k) && k2 != k && Answered(a, k2)
    ensures Answered(b, k2)
  {
    GrownHolders(a, b, k, k2);
  }

  /** What answering rounds k1 and k2 leaves as it was. */
  ghost predicate GrownBoth(a: Sys, b: Sys, k1: Key, k2: Key) {
    && (forall d | d in a.calls :: d in b.calls && SameRounds(b.calls[d], a.calls[d]))
    && (forall k | k != k1 && k != k2 && k in a.svc.rounds ::
          k in b.svc.rounds && b.svc.rounds[k].response == a.svc.rounds[k].response)
    && (HoldersHoldOne(a, k1) ==> HoldersHoldOne(b, k1))
    && (HoldersHoldOne(a, k2) ==> HoldersHoldOne(b, k2))
  }

  lemma GrownInTurn(a: Sys, b: Sys, c: Sys, k1: Key, k2: Key)
    requires k1 != k2 && Grown(a, b, k1) && Grown(b, c, k2)
    ensures GrownBoth(a, c, k1, k2)
  {
    GrownHolders(b, c, k2, k1);
    GrownHolders(a, b, k1, k2);
    if HoldersHoldOne(a, k1) {
      GrownHoldOne(a, b, k1);
    }
    if HoldersHoldOne(a, k2) {
      GrownHoldOne(b, c, k2);
    }
  }

  lemma GrownThenWoken(a: Sys, b: Sys, c: Sys, k1: Key, k2: Key)
    requires GrownBoth(a, b, k1, k2) && Woke(b, c)
    ensures GrownBoth(a, c, k1, k2)
  {
    SameHolders(b, c, k1);
    SameHolders(b, c, k2);
  }

  /** Both rounds get their response, and an abort wakes everybody. */
  lemma BothAnswered(cfg: Config, sys: Sys, k1: Key, k2: Key, g: Group) returns (steps: seq<Step>, after: Sys)
    requires Safe(cfg, sys) && Busy(sys) && cfg.wellFormed(g) && k1 != k2
    requires Answerable(cfg, sys, k1, g) && Answerable(cfg, sys, k2, g)
    ensures Reaches(cfg, false, sys, steps, after) && Safe(cfg, after) && Busy(after) && Awake(after)
    ensures Answered(after, k1) && Answered(after, k2) && Averaged(after, k2) && k2.round > 0
    ensures GrownBoth(sys, after, k1, k2)
  {
    var first, a := GetsAnswer(cfg, false, sys, k1, g);
    StillAnswerable(cfg, sys, a, k1, k2, g);
    var second, b := GetsAnswer(cfg, false, a, k2, g);
    StillAnswered(a, b, k2, k1);
    GrownInTurn(sys, a, b, k1, k2);
    var third;
    third, after := AllWake(cfg, false, b, k1);
    SameHolders(b, after, k1);
    SameHolders(b, after, k2);
    GrownThenWoken(sys, b, after, k1, k2);
    Then(cfg, false, sys, first, a, second, b);
    Then(cfg, false, sys, first + second, b, third, after);
    steps := first + second + third;
  }

  lemma AllWake(cfg: Config, orderly: bool, sys: Sys, k: Key) returns (steps: seq<Step>, after: Sys)
    requires Safe(cfg, sys) && Busy(sys) && Holders(sys.calls, k) != {}
    ensures Reaches(cfg, orderly, sys, steps, after) && Safe(cfg, after) && Busy(after) && Awake(after) && Woke(sys, after)
  {
    var c :| c in Holders(sys.calls, k);
    HeldHasReceivers(cfg, sys, c);
    steps, after := AbortWakes(cfg, orderly, sys, "all leave");
  }

  lemma SameHolders(a: Sys, b: Sys, k: Key)
    requires Woke(a, b)
    ensures Holders(b.calls, k) == Holders(a.calls, k)
    ensures HoldersHoldOne(a, k) ==> HoldersHoldOne(b, k)
  {
  }

  /** All holders of round k leave, which completes it; another round of its layer or group is not touched. */
  lemma Complete(cfg: Config, sys: Sys, k: Key) returns (steps: seq<Step>, after: Sys)
    requires Safe(cfg, sys) && Busy(sys) && Awake(sys) && Delivering(sys, k)
    ensures Reaches(cfg, false, sys, steps, after) && Safe(cfg, after) && Busy(after) && Awake(after)
    ensures k !in after.svc.rounds && k.id in after.svc.completed && after.svc.completed[k.id] == k.round
    ensures after.averagings == sys.averagings
    ensures forall k2: Key | k2.id == k.id && k2 != k :: k2 in after.svc.rounds <==> k2 in sys.svc.rounds
    ensures forall k2: Key | k2.id == k.id && k2 != k && Delivering(sys, k2) :: Delivering(after, k2)
  {
    steps, after := Drain(cfg, sys, k, Holders(sys.calls, k));
    forall k2: Key | k2.id == k.id && k2 != k && Delivering(sys, k2) ensures Delivering(after, k2) {
      OthersStay(sys, after, k, k2);
    }
  }

  lemma OthersStay(sys: Sys, after: Sys, k: Key, k2: Key)
    requires Drained(sys, after, k, Holders(sys.calls, k)) && HoldersHoldOne(sys, k)
    requires k2.id == k.id && k2 != k && Delivering(sys, k2)
    ensures Delivering(after, k2)
  {
    assert forall d | d in Holders(sys.calls, k2) :: d !in Holders(sys.calls, k);
    assert Holders(after.calls, k2) == Holders(sys.calls, k2);
  }

  /** The record of the latest completed round goes from the newer key to the older one, and the newer key is averaged
      again. */
  ghost predicate MovesBack(cfg: Config, sys: Sys, k1: Key, k2: Key, ahead: seq<Step>, back: seq<Step>, again: seq<Step>) {
    && ValidRun(cfg, sys, ahead)
    && var newer := After(cfg, sys, ahead);
       && k2.id in newer.svc.completed && newer.svc.completed[k2.id] == k2.round
       && ValidRun(cfg, newer, back)
       && var older := After(cfg, newer, back);
          && k1.id in older.svc.completed && older.svc.completed[k1.id] == k1.round
          && ValidRun(cfg, older, again)
          && !Once(After(cfg, older, again).averagings)
  }

  lemma AveragedAgain(cfg: Config, orderly: bool, sys: Sys, k: Key, g: Group) returns (steps: seq<Step>, after: Sys)
    requires Safe(cfg, sys) && Busy(sys) && cfg.wellFormed(g) && cfg.workers != {}
    requires k !in sys.svc.rounds && Fresh(sys.svc, k) && Averaged(sys, k)
    requires orderly ==> forall w | w in cfg.workers :: MaySend(sys, w, k)
    ensures Reaches(cfg, orderly, sys, steps, after) && !Once(after.averagings)
  {
    assert Missing(cfg, Lookup(sys.svc, k)) == cfg.workers;
    steps, after := FillRound(cfg, orderly, sys, k, g);
    var a :| a in sys.averagings && a.key == k;
    var i :| 0 <= i < |sys.averagings| && sys.averagings[i] == a;
    assert after.averagings[i].key == after.averagings[|after.averagings| - 1].key;
  }

  /** From every safe state in which two rounds of one layer or group can be completed, whoever holds them: the newer
      one can be completed before the older one. The Workers that are missing submit to both, an abort lets every call
      leave, and the calls of the newer round leave first. */
  lemma TwoOpenMovesBack(cfg: Config, sys: Sys, k1: Key, k2: Key, g: Group)
    returns (ahead: seq<Step>, back: seq<Step>, again: seq<Step>)
    requires Safe(cfg, sys) && Busy(sys) && cfg.wellFormed(g)
    requires k1.id == k2.id && k1.round < k2.round
    requires Completable(cfg, sys, k1, g) && Completable(cfg, sys, k2, g)
    ensures MovesBack(cfg, sys, k1, k2, ahead, back, again)
  {
    var first, a := BothAnswered(cfg, sys, k1, k2, g);
    SomeWorker(cfg, a, k1);
    var second, b := Complete(cfg, a, k2);
    Then(cfg, false, sys, first, a, second, b);
    ahead := first + second;
    ReachesIs(cfg, false, sys, ahead, b);
    var older;
    back, older := Complete(cfg, b, k1);
    ReachesIs(cfg, false, b, back, older);
    var end;
    again, end := AveragedAgain(cfg, false, older, k2, g);
    ReachesIs(cfg, false, older, again, end);
  }

  lemma SomeWorker(cfg: Config, sys: Sys, k: Key)
    requires Safe(cfg, sys) && Holders(sys.calls, k) != {}
    ensures cfg.workers != {}
  {
    var c :| c in Holders(sys.calls, k);
    assert CallSafe(cfg, sys, c);
  }
}
