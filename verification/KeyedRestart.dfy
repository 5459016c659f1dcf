/** What an abort leaves for a job that starts again under the same id: if it finds receivers the maps stay, and the
    first rounds that a Worker sent before are refused as stale or as already submitted. */
module KeyedRestart {
  import opened Wrappers
  import opened Gradients
  import opened KeyedRounds
  import opened KeyedRuns
  import opened KeyedOrder
  import opened KeyedBackwards

  predicate FirstRounds(rs: seq<Request>) {
    forall r | r in rs :: r.key.round == 1
  }

  predicate AllWellFormed(cfg: Config, rs: seq<Request>) {
    forall r | r in rs :: cfg.wellFormed(r.group)
  }

  // ---------- a first round stays taken ----------

  lemma {:induction false} ReleasedKept(s: Service, order: seq<Key>, w: Worker, k: Key)
    requires Releasable(s, order) && (forall k2 | k2 in order :: k2.round > 0)
    requires k.round == 1 && Kept(s, w, k)
    ensures Kept(ReleasedAll(s, order), w, k)
    decreases order
  {
    if order != [] {
      assert order[0] in order;
      assert forall k2 | k2 in order[1..] :: k2 in order && k2 != order[0];
      ReleasedKept(Released(s, order[0]), order[1..], w, k);
    }
  }

  lemma InsertedKept(s: Service, v: Worker, rs: seq<Request>, w: Worker, k: Key)
    requires Kept(s, w, k)
    ensures Kept(Inserted(s, v, rs), w, k)
  {
  }

  lemma SettledKept(cfg: Config, s: Service, ks: set<Key>, w: Worker, k: Key)
    requires Kept(s, w, k)
    ensures Kept(Settled(cfg, s, ks), w, k)
  {
  }

  lemma RegisteredKept(cfg: Config, s: Service, v: Worker, rs: seq<Request>, w: Worker, k: Key)
    requires Kept(s, w, k)
    ensures Kept(Registered(cfg, s, v, rs), w, k)
  {
    var n := Accepted(cfg, s, v, rs);
    InsertedKept(s, v, rs[..n], w, k);
    SettledKept(cfg, Inserted(s, v, rs[..n]), Keys(rs), w, k);
  }

  lemma HeldPositive(cfg: Config, sys: Sys, c: CallId)
    requires Core(cfg, sys) && c in sys.calls
    ensures forall k | k in sys.calls[c].remaining :: k in sys.svc.rounds && k.round > 0
  {
    assert CallSafe(cfg, sys, c);
    forall k | k in sys.calls[c].remaining ensures k.round > 0 {
      assert RoundSafe(cfg, sys, k);
    }
  }

  lemma LeaversKept(cfg: Config, sys: Sys, c: CallId, order: seq<Key>, w: Worker, k: Key)
    requires Core(cfg, sys) && c in sys.calls && Permutes(order, sys.calls[c].remaining) && Releasable(sys.svc, order)
    requires k.round == 1 && Kept(sys.svc, w, k)
    ensures Kept(LeftAll(sys, c, order).svc, w, k)
  {
    HeldPositive(cfg, sys, c);
    LeftAllIs(sys, c, order);
    ReleasedKept(sys.svc, order, w, k);
  }

  /** Only an abort without receivers frees a first round. */
  lemma StepKept(cfg: Config, sys: Sys, step: Step, w: Worker, k: Key)
    requires Safe(cfg, sys) && Enabled(cfg, sys, step) && KeepsMaps(sys, step)
    requires k.round == 1 && Kept(sys.svc, w, k)
    ensures Kept(Next(cfg, sys, step).svc, w, k)
  {
    match step
    case Open(c, unary, rs) =>
      OpenedService(cfg, sys, c, unary, rs);
      RegisteredKept(cfg, sys.svc, c.worker, rs, w, k);
    case Return(c) => LeaversKept(cfg, sys, c, sys.calls[c].order, w, k);
    case Emit(c, k2) => HeldPositive(cfg, sys, c);
    case Quit(c, order) => LeaversKept(cfg, sys, c, order, w, k);
    case Sleep(c) =>
    case Abort(reason) =>
  }

  lemma {:induction false} RunKept(cfg: Config, sys: Sys, steps: seq<Step>, w: Worker, k: Key)
    requires Safe(cfg, sys) && Busy(sys) && ValidRun(cfg, sys, steps) && MapsKept(cfg, sys, steps)
    requires k.round == 1 && Kept(sys.svc, w, k)
    ensures Kept(After(cfg, sys, steps).svc, w, k)
    decreases steps
  {
    if steps != [] {
      StepKept(cfg, sys, steps[0], w, k);
      NextSafe(cfg, sys, steps[0]);
      NextBusy(cfg, sys, steps[0]);
      RunKept(cfg, Next(cfg, sys, steps[0]), steps[1..], w, k);
    }
  }

  // ---------- everything that was sent is taken ----------

  ghost predicate FirstsKept(sys: Sys) {
    forall w, k {:trigger Kept(sys.svc, w, k)} | k in Sent(sys, w) && k.round == 1 :: Kept(sys.svc, w, k)
  }

  lemma NewlySent(cfg: Config, sys: Sys, step: Step, w: Worker, k: Key)
    requires Enabled(cfg, sys, step) && k in Sent(Next(cfg, sys, step), w) && k !in Sent(sys, w)
    ensures Kept(Next(cfg, sys, step).svc, w, k)
  {
    match step
    case Open(c, unary, rs) => OpenedSent(cfg, sys, c, unary, rs, w, k);
    case Return(c) => LeftAllIs(sys, c, sys.calls[c].order);
    case Emit(c, k2) =>
    case Quit(c, order) => LeftAllIs(sys, c, order);
    case Sleep(c) =>
    case Abort(reason) =>
  }

  lemma OpenedSent(cfg: Config, sys: Sys, c: CallId, unary: bool, rs: seq<Request>, w: Worker, k: Key)
    requires k in Sent(Opened(cfg, sys, c, unary, rs), w) && k !in Sent(sys, w)
    ensures Kept(Opened(cfg, sys, c, unary, rs).svc, w, k)
  {
    var n := Accepted(cfg, sys.svc, c.worker, rs);
    assert n == |rs| ==> rs[..n] == rs;
    assert w == c.worker && k in Keys(rs[..n]);
    assert Kept(Inserted(sys.svc, w, rs[..n]), w, k);
    SettledKept(cfg, Inserted(sys.svc, w, rs[..n]), Keys(rs), w, k);
  }

  lemma NextFirsts(cfg: Config, sys: Sys, step: Step)
    requires Safe(cfg, sys) && Enabled(cfg, sys, step) && FirstsKept(sys)
    ensures FirstsKept(Next(cfg, sys, step))
  {
    var after := Next(cfg, sys, step);
    forall w, k | k in Sent(after, w) && k.round == 1 ensures Kept(after.svc, w, k) {
      if k !in Sent(sys, w) {
        NewlySent(cfg, sys, step, w, k);
      } else {
        assert Kept(sys.svc, w, k);
        StepKept(cfg, sys, step, w, k);
      }
    }
  }

  lemma {:induction false} RunFirsts(cfg: Config, sys: Sys, steps: seq<Step>)
    requires Safe(cfg, sys) && Busy(sys) && FirstsKept(sys) && ValidRun(cfg, sys, steps)
    ensures Safe(cfg, After(cfg, sys, steps)) && Busy(After(cfg, sys, steps)) && FirstsKept(After(cfg, sys, steps))
    decreases steps
  {
    if steps != [] {
      NextFirsts(cfg, sys, steps[0]);
      NextSafe(cfg, sys, steps[0]);
      NextBusy(cfg, sys, steps[0]);
      RunFirsts(cfg, Next(cfg, sys, steps[0]), steps[1..]);
    }
  }

  // ---------- the job starts again ----------

  /** The first request is refused as stale or as submitted already. */
  predicate TakenBefore(cfg: Config, s: Service, w: Worker, rs: seq<Request>) {
    rs != [] && RejectionOf(cfg, s, w, rs, 0) in {Some(Stale), Some(DuplicateSubmission), Some(ConflictingSubmission)}
  }

  lemma KeptRefused(cfg: Config, s: Service, w: Worker, rs: seq<Request>)
    requires rs != [] && Kept(s, w, rs[0].key)
    ensures Accepted(cfg, s, w, rs) == 0
    ensures rs[0].key.round > 0 && cfg.wellFormed(rs[0].group) ==> TakenBefore(cfg, s, w, rs)
  {
  }

  lemma EmptyAccepts(cfg: Config, s: Service, w: Worker, rs: seq<Request>)
    requires s == Service(map[], map[]) && DistinctKeys(rs) && FirstRounds(rs) && AllWellFormed(cfg, rs)
    ensures Accepted(cfg, s, w, rs) == |rs|
  {
    forall i: nat | i < |rs| ensures RejectionOf(cfg, s, w, rs, i).None? {
      assert rs[i] in rs;
      NotEarlier(rs, i);
    }
  }

  /** A batch of different first rounds is refused at the first one that is taken. */
  lemma KeptDecides(cfg: Config, s: Service, w: Worker, rs: seq<Request>, i: nat)
    requires DistinctKeys(rs) && FirstRounds(rs) && AllWellFormed(cfg, rs) && i < |rs|
    ensures RejectionOf(cfg, s, w, rs, i).None? <==> !Kept(s, w, rs[i].key)
  {
    assert rs[i] in rs;
    NotEarlier(rs, i);
  }

  /** The first n rounds of the batch are free, and the next one, if there is one, is taken. */
  predicate FreeUpTo(s: Service, w: Worker, rs: seq<Request>, n: nat) {
    && n <= |rs| && (forall i | 0 <= i < n :: !Kept(s, w, rs[i].key))
    && (n < |rs| ==> Kept(s, w, rs[n].key))
  }

  lemma AbortKept(s: Service, reason: string, w: Worker, k: Key)
    requires HasReceivers(s)
    ensures Kept(Aborted(s, reason), w, k) <==> Kept(s, w, k)
  {
  }

  lemma AcceptedUntilKept(cfg: Config, s: Service, w: Worker, rs: seq<Request>)
    requires DistinctKeys(rs) && FirstRounds(rs) && AllWellFormed(cfg, rs)
    ensures FreeUpTo(s, w, rs, Accepted(cfg, s, w, rs))
  {
    var n := Accepted(cfg, s, w, rs);
    forall i: nat | i < n ensures !Kept(s, w, rs[i].key) {
      KeptDecides(cfg, s, w, rs, i);
    }
    if n < |rs| {
      KeptDecides(cfg, s, w, rs, n);
    }
  }

  /** After an abort, a batch of different first rounds, sent before or new, is accepted up to the first one that was
      taken before the abort, or whole if the abort found no receiver. */
  lemma RestartAccepts(cfg: Config, s: Service, reason: string, w: Worker, rs: seq<Request>)
    requires DistinctKeys(rs) && FirstRounds(rs) && AllWellFormed(cfg, rs)
    ensures var n := Accepted(cfg, Aborted(s, reason), w, rs);
            && (HasReceivers(s) ==> FreeUpTo(s, w, rs, n))
            && (!HasReceivers(s) ==> n == |rs|)
            && (n == |rs| <==> !HasReceivers(s) || forall k | k in Keys(rs) :: !Kept(s, w, k))
  {
    if HasReceivers(s) {
      AcceptedUntilKept(cfg, Aborted(s, reason), w, rs);
      forall i | 0 <= i < |rs| ensures Kept(Aborted(s, reason), w, rs[i].key) <==> Kept(s, w, rs[i].key) {
        AbortKept(s, reason, w, rs[i].key);
      }
      var n := Accepted(cfg, Aborted(s, reason), w, rs);
      if n < |rs| {
        assert rs[n] in rs && rs[n].key in Keys(rs);
      }
    } else {
      EmptyAccepts(cfg, Aborted(s, reason), w, rs);
    }
  }

  /** In every run, with any callers: after an abort, a Worker that sends first rounds again is accepted exactly when
      the abort found no receiver or all these rounds are new, and refused at the start if it begins with one that it
      sent before. */
  lemma RestartExactlyWhen(cfg: Config, steps: seq<Step>, sys: Sys, reason: string, w: Worker, rs: seq<Request>)
    requires ValidRun(cfg, INIT, steps) && After(cfg, INIT, steps) == sys
    requires DistinctKeys(rs) && FirstRounds(rs) && AllWellFormed(cfg, rs)
    ensures var after := Next(cfg, sys, Abort(reason)).svc;
            && (Accepted(cfg, after, w, rs) == |rs| <==>
                  !HasReceivers(sys.svc) || forall k | k in Keys(rs) :: !Kept(sys.svc, w, k))
            && (rs != [] && HasReceivers(sys.svc) && rs[0].key in Sent(sys, w) ==>
                  Accepted(cfg, after, w, rs) == 0 && TakenBefore(cfg, after, w, rs))
            && (forall k | k in Sent(sys, w) && k.round == 1 :: Kept(sys.svc, w, k))
  {
    RunFirsts(cfg, INIT, steps);
    RestartAccepts(cfg, sys.svc, reason, w, rs);
    if rs != [] && HasReceivers(sys.svc) && rs[0].key in Sent(sys, w) {
      assert rs[0] in rs;
      assert Kept(sys.svc, w, rs[0].key);
      AbortKept(sys.svc, reason, w, rs[0].key);
      KeptRefused(cfg, Next(cfg, sys, Abort(reason)).svc, w, rs);
    }
  }

  /** And it stays refused, whatever the callers do, until an abort finds no receiver. */
  lemma RefusedUntilDropped(cfg: Config, sys: Sys, steps: seq<Step>, w: Worker, rs: seq<Request>)
    requires Safe(cfg, sys) && Busy(sys) && ValidRun(cfg, sys, steps) && MapsKept(cfg, sys, steps)
    requires rs != [] && rs[0].key.round == 1 && Kept(sys.svc, w, rs[0].key)
    ensures Accepted(cfg, After(cfg, sys, steps).svc, w, rs) == 0
  {
    RunKept(cfg, sys, steps, w, rs[0].key);
    KeptRefused(cfg, After(cfg, sys, steps).svc, w, rs);
  }

  // ---------- a batch that mixes taken and new first rounds ----------

  /** A receiver of a rejected batch stays counted, so that every abort finds it. */
  lemma LeakStays(cfg: Config, sys: Sys, step: Step, k: Key)
    requires Safe(cfg, sys) && Enabled(cfg, sys, step) && Leaked(sys, k) > 0
    ensures Leaked(Next(cfg, sys, step), k) > 0 && KeepsMaps(sys, step)
  {
    assert RoundSafe(cfg, sys, k);
    match step
    case Open(c, unary, rs) =>
    case Return(c) => LeftAllIs(sys, c, sys.calls[c].order);
    case Emit(c, k2) =>
    case Quit(c, order) => LeftAllIs(sys, c, order);
    case Sleep(c) =>
    case Abort(reason) =>
  }

  lemma {:induction false} LeakKeepsMaps(cfg: Config, sys: Sys, steps: seq<Step>, k: Key)
    requires Safe(cfg, sys) && Busy(sys) && ValidRun(cfg, sys, steps) && Leaked(sys, k) > 0
    ensures MapsKept(cfg, sys, steps)
    decreases steps
  {
    if steps != [] {
      LeakStays(cfg, sys, steps[0], k);
      NextSafe(cfg, sys, steps[0]);
      NextBusy(cfg, sys, steps[0]);
      LeakKeepsMaps(cfg, Next(cfg, sys, steps[0]), steps[1..], k);
    }
  }

  /** The batch is refused part-way: everything up to the refused round is taken, and the first round has a receiver
      that no call will take away. */
  lemma MixedLeaks(cfg: Config, sys: Sys, c: CallId, unary: bool, rs: seq<Request>, n: nat, i: nat)
    requires n == Accepted(cfg, sys.svc, c.worker, rs) && 0 < n < |rs| && i <= n
    requires DistinctKeys(rs) && FirstRounds(rs) && AllWellFormed(cfg, rs)
    ensures var after := Opened(cfg, sys, c, unary, rs);
            Leaked(after, rs[0].key) > 0 && Kept(after.svc, c.worker, rs[i].key)
  {
    assert rs[..n][0] in rs[..n];
    if i < n {
      assert rs[..n][i] in rs[..n];
      assert Kept(Inserted(sys.svc, c.worker, rs[..n]), c.worker, rs[i].key);
    } else {
      KeptDecides(cfg, sys.svc, c.worker, rs, n);
      InsertedKept(sys.svc, c.worker, rs[..n], c.worker, rs[n].key);
    }
  }

  /** From then on the Worker's batches that start with one of these rounds are refused for ever: no abort, and nothing
      that callers do, helps. */
  lemma MixedRefusedForever(cfg: Config, sys: Sys, c: CallId, unary: bool, rs: seq<Request>, steps: seq<Step>,
                            again: seq<Request>, i: nat)
    requires Safe(cfg, sys) && Busy(sys) && Enabled(cfg, sys, Open(c, unary, rs))
    requires DistinctKeys(rs) && FirstRounds(rs) && AllWellFormed(cfg, rs)
    requires 0 < Accepted(cfg, sys.svc, c.worker, rs) < |rs| && i <= Accepted(cfg, sys.svc, c.worker, rs)
    requires ValidRun(cfg, Opened(cfg, sys, c, unary, rs), steps)
    requires again != [] && again[0].key == rs[i].key
    ensures Accepted(cfg, After(cfg, Opened(cfg, sys, c, unary, rs), steps).svc, c.worker, again) == 0
  {
    var after := Opened(cfg, sys, c, unary, rs);
    assert rs[i] in rs;
    MixedLeaks(cfg, sys, c, unary, rs, Accepted(cfg, sys.svc, c.worker, rs), i);
    NextSafe(cfg, sys, Open(c, unary, rs));
    NextBusy(cfg, sys, Open(c, unary, rs));
    LeakKeepsMaps(cfg, after, steps, rs[0].key);
    RefusedUntilDropped(cfg, after, steps, c.worker, again);
  }

  // ---------- an example in every job ----------

  /** Only call c is left, and Worker w has sent the first round k. */
  ghost predicate OnlyCall(cfg: Config, sys: Sys, c: CallId, w: Worker, k: Key) {
    && Safe(cfg, sys) && Busy(sys) && sys.calls.Keys == {c} && sys.leaked == map[]
    && k.round == 1 && Kept(sys.svc, w, k)
  }

  lemma OpensFirst(cfg: Config, c: CallId, k: Key, g: Group) returns (step: Step, after: Sys)
    requires c.worker in cfg.workers && cfg.wellFormed(g) && k.round == 1
    ensures Reaches(cfg, false, INIT, [step], after) && OnlyCall(cfg, after, c, c.worker, k)
  {
    var rs := [Request(k, g)];
    step := Open(c, true, rs);
    OneAccepted(cfg, INIT.svc, c.worker, k, g);
    OpenedWhole(cfg, INIT, c, true, rs);
    OneEntered(INIT.calls, c, k, g);
    OneSettled(cfg, INIT.svc, c.worker, k, g);
    OneStep(cfg, false, INIT, step);
    NextSafe(cfg, INIT, step);
    NextBusy(cfg, INIT, step);
    after := Next(cfg, INIT, step);
  }

  lemma ThenAborted(cfg: Config, sys: Sys, c: CallId, w: Worker, k: Key) returns (step: Step, after: Sys)
    requires OnlyCall(cfg, sys, c, w, k)
    ensures Reaches(cfg, false, sys, [step], after) && OnlyCall(cfg, after, c, w, k) && Awake(after)
  {
    step := Abort("restart");
    HeldHasReceivers(cfg, sys, c);
    OneStep(cfg, false, sys, step);
    NextSafe(cfg, sys, step);
    NextBusy(cfg, sys, step);
    StepKept(cfg, sys, step, w, k);
    after := Next(cfg, sys, step);
  }

  lemma ThenGone(cfg: Config, sys: Sys, c: CallId, w: Worker, k: Key) returns (step: Step, after: Sys)
    requires OnlyCall(cfg, sys, c, w, k) && Awake(sys)
    ensures Reaches(cfg, false, sys, [step], after) && after.calls == map[]
    ensures Kept(after.svc, w, k) && !HasReceivers(after.svc)
  {
    var order;
    HeldHasReceivers(cfg, sys, c);
    step, order, after := LeaveOne(cfg, sys, c);
    OneStep(cfg, false, sys, step);
    NextSafe(cfg, sys, step);
    StepKept(cfg, sys, step, w, k);
    NobodyWaits(cfg, after);
  }

  lemma NobodyWaits(cfg: Config, sys: Sys)
    requires Core(cfg, sys) && sys.calls == map[] && sys.leaked == map[]
    ensures !HasReceivers(sys.svc)
  {
    forall k | k in sys.svc.rounds ensures sys.svc.rounds[k].waiting == 0 {
      assert RoundSafe(cfg, sys, k) && Holders(sys.calls, k) == {};
    }
  }

  /** For any Worker of any job: it opens a first round, the job is aborted, the call returns and nobody is left, and
      the Worker's first round is refused. */
  lemma RestartExample(cfg: Config, c: CallId, k: Key, g: Group) returns (steps: seq<Step>, after: Sys)
    requires c.worker in cfg.workers && cfg.wellFormed(g) && k.round == 1
    ensures Reaches(cfg, false, INIT, steps, after) && after.calls == map[] && !HasReceivers(after.svc)
    ensures TakenBefore(cfg, after.svc, c.worker, [Request(k, g)])
  {
    var open, a := OpensFirst(cfg, c, k, g);
    var abort, b := ThenAborted(cfg, a, c, c.worker, k);
    var leave;
    leave, after := ThenGone(cfg, b, c, c.worker, k);
    Then(cfg, false, INIT, [open], a, [abort], b);
    Then(cfg, false, INIT, [open] + [abort], b, [leave], after);
    steps := [open] + [abort] + [leave];
    KeptRefused(cfg, after.svc, c.worker, [Request(k, g)]);
  }
}
