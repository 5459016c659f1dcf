/** The dense barrier of the Master: whole-gradient rounds, one at a time, behind a gate.
    Round objects are referred to by number in `heap`, because a call keeps a reference to the round it
    joined while the service may already point to another. */
module DenseRounds {
  import opened Wrappers
  import opened Gradients

  type Worker = string

  /** A response carries the number of the round it answers. */
  datatype Response = Response(number: nat, chunks: seq<Chunk>)

  datatype Outcome = Average(chunks: seq<Chunk>) | Failure(message: string)

  datatype Config = Config(expected: nat, average: map<Worker, seq<Chunk>> -> Outcome)

  datatype Round = Round(
    number: nat,
    gradients: map<Worker, seq<Chunk>>,
    response: Option<Response>,
    err: Option<string>,
    waiting: int)
  {
    predicate Ready() { response.Some? || err.Some? }
  }

  function NewRound(number: nat): Round {
    Round(number, map[], None, None, 0)
  }

  /** The submission is stored and counted; the one that completes the barrier averages. */
  function Joined(cfg: Config, r: Round, w: Worker, g: seq<Chunk>): Round {
    var stored := r.(gradients := r.gradients[w := g], waiting := r.waiting + 1);
    if |stored.gradients| == cfg.expected then
      match cfg.average(stored.gradients)
      case Average(chunks) => stored.(response := Some(Response(r.number, chunks)))
      case Failure(m) => stored.(err := Some(m))
    else stored
  }

  function NextNumber(number: nat, resetPending: bool): nat {
    if resetPending then 1 else number + 1
  }

  // ---------- runs ----------

  datatype Call = AtGate(w: Worker, g: seq<Chunk>, asleep: bool) | Inside(ref: nat, asleep: bool)

  datatype Delivery = Delivery(call: nat, ref: nat, response: Response)

  datatype Sys = Sys(
    heap: map<nat, Round>,
    current: nat,
    resetPending: bool,
    calls: map<nat, Call>,
    deliveries: seq<Delivery>)

  /** Abort says whether keyed rounds have waiting receivers; in a dense-only run they never have. */
  datatype Step =
    | Arrive(c: nat, w: Worker, g: seq<Chunk>)
    | Enter(c: nat)
    | Leave(c: nat)
    | Sleep(c: nat)
    | Abort(reason: string, keyedWaiters: bool)

  const INIT: Sys := Sys(map[0 := NewRound(1)], 0, false, map[], [])

  predicate GateOpen(sys: Sys) {
    sys.current in sys.heap && !sys.heap[sys.current].Ready()
  }

  predicate CanLeave(sys: Sys, c: nat) {
    c in sys.calls && sys.calls[c].Inside? && sys.calls[c].ref in sys.heap && sys.heap[sys.calls[c].ref].Ready()
  }

  predicate Enabled(sys: Sys, step: Step) {
    match step
    case Arrive(c, w, g) => c !in sys.calls
    case Enter(c) => c in sys.calls && sys.calls[c].AtGate? && !sys.calls[c].asleep && GateOpen(sys)
    case Leave(c) => CanLeave(sys, c) && !sys.calls[c].asleep && sys.current in sys.heap
    case Sleep(c) =>
      && c in sys.calls && !sys.calls[c].asleep
      && (if sys.calls[c].AtGate? then !GateOpen(sys) else !CanLeave(sys, c))
    case Abort(_, _) => sys.current in sys.heap
  }

  function Woken(calls: map<nat, Call>): map<nat, Call> {
    map c | c in calls :: calls[c].(asleep := false)
  }

  /** References are handed out in increasing order. */
  function NextRef(sys: Sys): nat {
    sys.current + 1
  }

  function Replaced(sys: Sys, number: nat): Sys {
    sys.(heap := sys.heap[NextRef(sys) := NewRound(number)], current := NextRef(sys), resetPending := false)
  }

  function Next(cfg: Config, sys: Sys, step: Step): Sys
    requires Enabled(sys, step)
  {
    match step
    case Arrive(c, w, g) => sys.(calls := sys.calls[c := AtGate(w, g, false)])
    case Enter(c) =>
      var r := Joined(cfg, sys.heap[sys.current], sys.calls[c].w, sys.calls[c].g);
      var calls := sys.calls[c := Inside(sys.current, false)];
      sys.(heap := sys.heap[sys.current := r], calls := if r.Ready() then Woken(calls) else calls)
    case Leave(c) =>
      var ref := sys.calls[c].ref;
      var r := sys.heap[ref].(waiting := sys.heap[ref].waiting - 1);
      var left := sys.(
        heap := sys.heap[ref := r],
        calls := sys.calls - {c},
        deliveries := if r.err.None? && r.response.Some?
                      then sys.deliveries + [Delivery(c, ref, r.response.value)] else sys.deliveries);
      if r.waiting == 0 then
        Replaced(left, NextNumber(sys.heap[sys.current].number, sys.resetPending)).(calls := Woken(left.calls))
      else left
    case Sleep(c) => sys.(calls := sys.calls[c := sys.calls[c].(asleep := true)])
    case Abort(reason, keyedWaiters) =>
      var r := sys.heap[sys.current];
      if r.waiting == 0 && !keyedWaiters then Replaced(sys, 1)
      else
        sys.(heap := sys.heap[sys.current := r.(err := Some("job aborted: " + reason))],
             resetPending := true,
             calls := Woken(sys.calls))
  }

  ghost predicate ValidRun(cfg: Config, sys: Sys, steps: seq<Step>)
    decreases steps
  {
    steps == [] || (Enabled(sys, steps[0]) && ValidRun(cfg, Next(cfg, sys, steps[0]), steps[1..]))
  }

  ghost function After(cfg: Config, sys: Sys, steps: seq<Step>): Sys
    requires ValidRun(cfg, sys, steps)
    decreases steps
  {
    if steps == [] then sys else After(cfg, Next(cfg, sys, steps[0]), steps[1..])
  }

  // ---------- what dense-only runs keep ----------

  ghost function InsideCalls(calls: map<nat, Call>): set<nat> {
    set c | c in calls && calls[c].Inside?
  }

  /** Every call inside holds the current round, and sleeps only while it is unanswered; a call at the
      gate sleeps only while the gate is closed. */
  ghost predicate CallSafe(sys: Sys, c: nat)
    requires c in sys.calls
  {
    match sys.calls[c]
    case Inside(ref, asleep) => ref == sys.current && (asleep ==> !CanLeave(sys, c))
    case AtGate(_, _, asleep) => asleep ==> !GateOpen(sys)
  }

  /** The current round counts exactly the calls inside, holds at most the expected submissions, is
      answered when it has them all, and if it is closed somebody is left to reopen the gate. */
  ghost predicate RoundSafe(cfg: Config, sys: Sys) {
    && sys.current in sys.heap
    && (forall ref | ref in sys.heap :: ref <= sys.current)
    && var r := sys.heap[sys.current];
    && r.waiting == |InsideCalls(sys.calls)|
    && |r.gradients| <= cfg.expected
    && (|r.gradients| == cfg.expected ==> r.Ready())
    && (r.Ready() ==> r.waiting > 0)
  }

  /** A response, once there, is the average of as many submissions as Workers are expected, under this round's number. */
  ghost predicate Answered(cfg: Config, r: Round) {
    r.response.Some? ==>
      && |r.gradients| == cfg.expected
      && cfg.average(r.gradients) == Average(r.response.value.chunks)
      && r.response.value.number == r.number
  }

  ghost predicate DeliverySafe(sys: Sys, d: Delivery) {
    d.ref in sys.heap && sys.heap[d.ref].response == Some(d.response)
  }

  ghost predicate Safe(cfg: Config, sys: Sys) {
    && cfg.expected > 0
    && RoundSafe(cfg, sys)
    && (forall c {:trigger CallSafe(sys, c)} | c in sys.calls :: CallSafe(sys, c))
    && (forall ref {:trigger Answered(cfg, sys.heap[ref])} | ref in sys.heap :: Answered(cfg, sys.heap[ref]))
    && (forall d {:trigger DeliverySafe(sys, d)} | d in sys.deliveries :: DeliverySafe(sys, d))
  }

  predicate DenseOnly(step: Step) {
    step.Abort? ==> !step.keyedWaiters
  }

  lemma InitSafe(cfg: Config)
    requires cfg.expected > 0
    ensures Safe(cfg, INIT)
  {
    assert InsideCalls(INIT.calls) == {};
  }

  lemma EnterSafe(cfg: Config, sys: Sys, c: nat)
    requires Safe(cfg, sys) && Enabled(sys, Enter(c))
    ensures Safe(cfg, Next(cfg, sys, Enter(c)))
  {
    var after := Next(cfg, sys, Enter(c));
    var was := sys.heap[sys.current];
    var w := sys.calls[c].w;
    assert InsideCalls(after.calls) == InsideCalls(sys.calls) + {c};
    GradientCount(was.gradients, w, sys.calls[c].g);
    forall d | d in after.calls ensures CallSafe(after, d) {
      if d != c {
        assert CallSafe(sys, d);
      }
    }
    forall ref | ref in after.heap ensures Answered(cfg, after.heap[ref]) {
      if ref != sys.current {
        assert Answered(cfg, sys.heap[ref]);
      }
    }
    forall d | d in after.deliveries ensures DeliverySafe(after, d) {
      assert DeliverySafe(sys, d);
    }
  }

  lemma GradientCount(m: map<Worker, seq<Chunk>>, w: Worker, g: seq<Chunk>)
    ensures |m| <= |m[w := g]| <= |m| + 1
  {
    if w in m {
      assert m[w := g].Keys == m.Keys;
      assert |m[w := g].Keys| == |m.Keys|;
    } else {
      assert m[w := g].Keys == m.Keys + {w};
      assert |m[w := g].Keys| == |m.Keys| + 1;
    }
  }

  lemma LeaveAnswers(cfg: Config, sys: Sys, c: nat)
    requires Safe(cfg, sys) && Enabled(sys, Leave(c))
    ensures var after := Next(cfg, sys, Leave(c));
            && (forall ref | ref in sys.heap :: ref in after.heap && after.heap[ref].response == sys.heap[ref].response)
            && (forall ref | ref in after.heap :: Answered(cfg, after.heap[ref]))
  {
    var after := Next(cfg, sys, Leave(c));
    assert CallSafe(sys, c);
    forall ref | ref in after.heap ensures Answered(cfg, after.heap[ref]) {
      if ref in sys.heap {
        assert Answered(cfg, sys.heap[ref]);
      }
    }
  }

  lemma LeaveDeliveries(cfg: Config, sys: Sys, c: nat)
    requires Safe(cfg, sys) && Enabled(sys, Leave(c))
    ensures var after := Next(cfg, sys, Leave(c));
            forall d | d in after.deliveries :: DeliverySafe(after, d)
  {
    var after := Next(cfg, sys, Leave(c));
    LeaveAnswers(cfg, sys, c);
    forall d | d in after.deliveries ensures DeliverySafe(after, d) {
      if d in sys.deliveries {
        assert DeliverySafe(sys, d);
      } else {
        assert d.ref in sys.heap && sys.heap[d.ref].response == Some(d.response);
      }
    }
  }

  lemma LeaveSafe(cfg: Config, sys: Sys, c: nat)
    requires Safe(cfg, sys) && Enabled(sys, Leave(c))
    ensures Safe(cfg, Next(cfg, sys, Leave(c)))
  {
    var after := Next(cfg, sys, Leave(c));
    assert CallSafe(sys, c);
    assert c in InsideCalls(sys.calls);
    assert InsideCalls(after.calls) == InsideCalls(sys.calls) - {c};
    assert |InsideCalls(after.calls)| == sys.heap[sys.current].waiting - 1;
    LeaveAnswers(cfg, sys, c);
    LeaveDeliveries(cfg, sys, c);
    forall d | d in after.calls ensures CallSafe(after, d) {
      assert CallSafe(sys, d);
      if sys.calls[d].Inside? {
        assert d in InsideCalls(after.calls);
        assert |InsideCalls(after.calls)| > 0;
        assert after.current == sys.current;
      }
    }
  }

  lemma AbortSafe(cfg: Config, sys: Sys, reason: string)
    requires Safe(cfg, sys)
    ensures Safe(cfg, Next(cfg, sys, Abort(reason, false)))
  {
    var after := Next(cfg, sys, Abort(reason, false));
    assert InsideCalls(after.calls) == InsideCalls(sys.calls);
    assert Answered(cfg, sys.heap[sys.current]);
    forall d | d in after.calls ensures CallSafe(after, d) {
      assert CallSafe(sys, d);
      if sys.calls[d].Inside? {
        assert d in InsideCalls(sys.calls);
      }
    }
    forall ref | ref in after.heap ensures Answered(cfg, after.heap[ref]) {
      if ref in sys.heap {
        assert Answered(cfg, sys.heap[ref]);
      }
    }
    forall d | d in after.deliveries ensures DeliverySafe(after, d) {
      assert DeliverySafe(sys, d);
    }
  }

  lemma IdleSafe(cfg: Config, sys: Sys, step: Step)
    requires Safe(cfg, sys) && Enabled(sys, step) && (step.Arrive? || step.Sleep?)
    ensures Safe(cfg, Next(cfg, sys, step))
  {
    var after := Next(cfg, sys, step);
    assert InsideCalls(after.calls) == InsideCalls(sys.calls);
    forall d | d in after.calls ensures CallSafe(after, d) {
      if d in sys.calls {
        assert CallSafe(sys, d);
      }
    }
    forall ref | ref in after.heap ensures Answered(cfg, after.heap[ref]) {
      assert Answered(cfg, sys.heap[ref]);
    }
    forall d | d in after.deliveries ensures DeliverySafe(after, d) {
      assert DeliverySafe(sys, d);
    }
  }

  lemma NextSafe(cfg: Config, sys: Sys, step: Step)
    requires Safe(cfg, sys) && Enabled(sys, step) && DenseOnly(step)
    ensures Safe(cfg, Next(cfg, sys, step))
  {
    match step
    case Arrive(c, w, g) => IdleSafe(cfg, sys, step);
    case Enter(c) => EnterSafe(cfg, sys, c);
    case Leave(c) => LeaveSafe(cfg, sys, c);
    case Sleep(c) => IdleSafe(cfg, sys, step);
    case Abort(reason, keyed) => AbortSafe(cfg, sys, reason);
  }

  lemma {:induction false} RunSafe(cfg: Config, sys: Sys, steps: seq<Step>)
    requires Safe(cfg, sys) && ValidRun(cfg, sys, steps)
    requires forall step | step in steps :: DenseOnly(step)
    ensures Safe(cfg, After(cfg, sys, steps))
    decreases steps
  {
    if steps != [] {
      assert steps[0] in steps && forall step | step in steps[1..] :: step in steps;
      NextSafe(cfg, sys, steps[0]);
      RunSafe(cfg, Next(cfg, sys, steps[0]), steps[1..]);
    }
  }

  /** In every dense-only run: all successful receivers of a round got one and the same response, which
      carries the number of that round and averages as many submissions as Workers are expected. */
  lemma OneAnswerPerRound(cfg: Config, steps: seq<Step>)
    requires cfg.expected > 0 && ValidRun(cfg, INIT, steps)
    requires forall step | step in steps :: DenseOnly(step)
    ensures var sys := After(cfg, INIT, steps);
            forall d | d in sys.deliveries ::
              && d.ref in sys.heap
              && d.response.number == sys.heap[d.ref].number
              && |sys.heap[d.ref].gradients| == cfg.expected
              && cfg.average(sys.heap[d.ref].gradients) == Average(d.response.chunks)
              && (forall d2 | d2 in sys.deliveries && d2.ref == d.ref :: d2.response == d.response)
  {
    InitSafe(cfg);
    RunSafe(cfg, INIT, steps);
    var sys := After(cfg, INIT, steps);
    forall d | d in sys.deliveries
      ensures DeliverySafe(sys, d) && Answered(cfg, sys.heap[d.ref])
    {
      assert DeliverySafe(sys, d);
      assert Answered(cfg, sys.heap[d.ref]);
    }
  }

  // ---------- the numbers of the rounds ----------

  /** Since the last restart the rounds are numbered 1, 2, 3, ..., from the round that `start` refers to; after an abort
      that found receivers that round is still to be opened. */
  ghost predicate Numbered(sys: Sys, start: nat) {
    && (forall ref: nat :: ref in sys.heap <==> ref <= sys.current)
    && (forall ref: nat | start <= ref <= sys.current :: sys.heap[ref].number == ref - start + 1)
    && (if sys.resetPending then start == sys.current + 1 else start <= sys.current)
  }

  lemma InitNumbered()
    ensures Numbered(INIT, 0)
  {
    assert INIT.heap[0] == NewRound(1);
    assert INIT.heap.Keys == {0};
  }

  /** The round that counts as the first one after this step: an abort starts again with the next round. */
  function StartAfter(sys: Sys, step: Step, start: nat): nat {
    if step.Abort? then sys.current + 1 else start
  }

  lemma NextNumbered(cfg: Config, sys: Sys, step: Step, start: nat)
    requires Safe(cfg, sys) && Enabled(sys, step) && Numbered(sys, start)
    ensures Numbered(Next(cfg, sys, step), StartAfter(sys, step, start))
  {
    match step
    case Arrive(c, w, g) =>
    case Enter(c) =>
    case Leave(c) => assert CallSafe(sys, c);
    case Sleep(c) =>
    case Abort(reason, keyed) =>
  }

  /** The round that counts as the first one at the end of a run. */
  ghost function LastStart(cfg: Config, sys: Sys, steps: seq<Step>, start: nat): nat
    requires ValidRun(cfg, sys, steps)
    decreases steps
  {
    if steps == [] then start
    else LastStart(cfg, Next(cfg, sys, steps[0]), steps[1..], StartAfter(sys, steps[0], start))
  }

  lemma {:induction false} RunNumbered(cfg: Config, sys: Sys, steps: seq<Step>, start: nat)
    requires Safe(cfg, sys) && ValidRun(cfg, sys, steps) && Numbered(sys, start)
    requires forall step | step in steps :: DenseOnly(step)
    ensures Numbered(After(cfg, sys, steps), LastStart(cfg, sys, steps, start))
    ensures Safe(cfg, After(cfg, sys, steps))
    ensures (forall step | step in steps :: !step.Abort?) ==> LastStart(cfg, sys, steps, start) == start
    decreases steps
  {
    if steps != [] {
      assert steps[0] in steps && forall step | step in steps[1..] :: step in steps;
      NextSafe(cfg, sys, steps[0]);
      NextNumbered(cfg, sys, steps[0], start);
      RunNumbered(cfg, Next(cfg, sys, steps[0]), steps[1..], StartAfter(sys, steps[0], start));
    }
  }

  /** In every dense-only run without abort the rounds are numbered 1, 2, 3, ..., and so are the responses: those of
      the same round carry the same number, and those of later rounds higher ones. */
  lemma NumbersCount(cfg: Config, steps: seq<Step>)
    requires cfg.expected > 0 && ValidRun(cfg, INIT, steps)
    requires forall step | step in steps :: !step.Abort?
    ensures var sys := After(cfg, INIT, steps);
            && (forall ref | ref in sys.heap :: sys.heap[ref].number == ref + 1)
            && (forall d | d in sys.deliveries :: d.response.number == d.ref + 1)
  {
    InitSafe(cfg);
    InitNumbered();
    RunNumbered(cfg, INIT, steps, 0);
    OneAnswerPerRound(cfg, steps);
  }

  /** In every dense-only run, an abort makes the next round number 1, and the rounds after it count on from there. */
  lemma NumbersRestart(cfg: Config, before: seq<Step>, sys: Sys, reason: string, after: seq<Step>, end: Sys)
    requires cfg.expected > 0 && ValidRun(cfg, INIT, before) && After(cfg, INIT, before) == sys
    requires forall step | step in before :: DenseOnly(step)
    requires Enabled(sys, Abort(reason, false)) && ValidRun(cfg, Next(cfg, sys, Abort(reason, false)), after)
    requires After(cfg, Next(cfg, sys, Abort(reason, false)), after) == end
    requires forall step | step in after :: !step.Abort?
    ensures forall ref: nat | ref in end.heap && ref > sys.current :: end.heap[ref].number == ref - sys.current
    ensures forall d | d in end.deliveries && d.ref > sys.current :: d.response.number == d.ref - sys.current
  {
    InitSafe(cfg);
    InitNumbered();
    RunNumbered(cfg, INIT, before, 0);
    AbortNumbered(cfg, sys, reason, LastStart(cfg, INIT, before, 0));
    RunNumbered(cfg, Next(cfg, sys, Abort(reason, false)), after, sys.current + 1);
    DeliveredNumbers(cfg, end);
  }

  lemma AbortNumbered(cfg: Config, sys: Sys, reason: string, start: nat)
    requires Safe(cfg, sys) && Numbered(sys, start)
    ensures Enabled(sys, Abort(reason, false)) && Safe(cfg, Next(cfg, sys, Abort(reason, false)))
    ensures Numbered(Next(cfg, sys, Abort(reason, false)), sys.current + 1)
  {
    NextNumbered(cfg, sys, Abort(reason, false), start);
    NextSafe(cfg, sys, Abort(reason, false));
  }

  lemma DeliveredNumbers(cfg: Config, sys: Sys)
    requires Safe(cfg, sys)
    ensures forall d | d in sys.deliveries :: d.ref in sys.heap && d.response.number == sys.heap[d.ref].number
  {
    forall d | d in sys.deliveries ensures d.ref in sys.heap && d.response.number == sys.heap[d.ref].number {
      assert DeliverySafe(sys, d) && Answered(cfg, sys.heap[d.ref]);
    }
  }

  // ---------- the gate ----------

  lemma SomeoneCanLeave(cfg: Config, sys: Sys) returns (c: nat)
    requires Safe(cfg, sys) && !GateOpen(sys)
    ensures Enabled(sys, Leave(c))
  {
    assert InsideCalls(sys.calls) != {};
    c :| c in InsideCalls(sys.calls);
    assert CallSafe(sys, c);
  }

  /** A closed gate reopens: the receivers that are still inside are all awake and able to leave, and
      once they have, the next round is open. */
  lemma {:induction false} GateReopens(cfg: Config, sys: Sys) returns (steps: seq<Step>)
    requires Safe(cfg, sys)
    ensures ValidRun(cfg, sys, steps) && GateOpen(After(cfg, sys, steps))
    ensures forall step | step in steps :: step.Leave?
    ensures |steps| == if GateOpen(sys) then 0 else sys.heap[sys.current].waiting
    decreases |InsideCalls(sys.calls)|
  {
    if GateOpen(sys) {
      steps := [];
    } else {
      var c := SomeoneCanLeave(cfg, sys);
      LeaveSafe(cfg, sys, c);
      var after := Next(cfg, sys, Leave(c));
      assert CallSafe(sys, c);
      assert InsideCalls(after.calls) == InsideCalls(sys.calls) - {c};
      var rest := GateReopens(cfg, after);
      steps := [Leave(c)] + rest;
      assert steps[0] == Leave(c) && steps[1..] == rest;
    }
  }

  /** The gate is closed and nobody is left inside to reopen it. */
  ghost predicate Stuck(sys: Sys) {
    sys.current in sys.heap && !GateOpen(sys) && InsideCalls(sys.calls) == {}
  }

  /** An abort leaves the dense gate stuck exactly when no dense call is inside while some keyed round
      still has receivers. */
  lemma AbortSticksExactlyWhen(cfg: Config, sys: Sys, reason: string, keyedWaiters: bool)
    requires Safe(cfg, sys)
    ensures Stuck(Next(cfg, sys, Abort(reason, keyedWaiters)))
       <==> keyedWaiters && sys.heap[sys.current].waiting == 0
  {
    var after := Next(cfg, sys, Abort(reason, keyedWaiters));
    assert InsideCalls(after.calls) == InsideCalls(sys.calls);
  }

  /** Once stuck, no dense call ever enters or leaves again, until an abort finds no keyed receivers either. */
  lemma {:induction false} StuckStays(cfg: Config, sys: Sys, steps: seq<Step>)
    requires Stuck(sys) && ValidRun(cfg, sys, steps)
    requires forall step | step in steps :: step.Abort? ==> step.keyedWaiters
    ensures Stuck(After(cfg, sys, steps))
    ensures forall step | step in steps :: !step.Enter? && !step.Leave?
    decreases steps
  {
    if steps != [] {
      var step := steps[0];
      assert step in steps && forall step | step in steps[1..] :: step in steps;
      var after := Next(cfg, sys, step);
      LeaverIsInside(sys, step);
      assert InsideCalls(after.calls) == {} by {
        assert InsideCalls(after.calls) <= InsideCalls(sys.calls);
      }
      StuckStays(cfg, after, steps[1..]);
      assert steps == [step] + steps[1..];
    }
  }

  lemma LeaverIsInside(sys: Sys, step: Step)
    requires Enabled(sys, step)
    ensures step.Leave? ==> InsideCalls(sys.calls) != {}
  {
    if step.Leave? {
      assert step.c in InsideCalls(sys.calls);
    }
  }
}
