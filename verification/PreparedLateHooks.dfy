/** A hook that fires again in a round: when it does harm, and the runs in which every gradient is the Master's. */
module PreparedLateHooks {
  import opened Wrappers
  import opened Gradients
  import opened PreparedSpec
  import opened PreparedRuns
  import opened PreparedSafety

  // ---------- late hooks ----------

  /** A hook ends for a slot whose group's answer has been stored before. */
  ghost predicate Late(p: Plan, run: seq<Sys>, i: nat, slot: Slot, c: Chunk)
    requires PlanOk(p) && i < |run| - 1
  {
    HookEnds(p, run[i], run[i+1], slot, c) && TicketOf(p, slot) in run[i].log.stored
  }

  /** Up to state n, the hook that ends at i with chunk c is the last late one for the slot. */
  ghost predicate LastLate(p: Plan, run: seq<Sys>, n: nat, i: nat, slot: Slot, c: Chunk)
    requires PlanOk(p) && n < |run|
  {
    i < n && Late(p, run, i, slot, c) && forall j: nat, d | i < j < n :: !Late(p, run, j, slot, d)
  }

  /** The log of late hooks says what happened. */
  ghost predicate LateLogged(p: Plan, run: seq<Sys>, n: nat, slot: Slot)
    requires PlanOk(p) && n < |run|
  {
    && (slot in run[n].log.late ==> exists i :: LastLate(p, run, n, i, slot, run[n].log.late[slot]))
    && (slot !in run[n].log.late ==> forall i: nat, c | i < n :: !Late(p, run, i, slot, c))
  }

  lemma {:induction false} LogsLate(p: Plan, run: seq<Sys>, n: nat, slot: Slot)
    requires PlanOk(p) && Run(p, run) && n < |run| && slot.layer < |p.layers|
    ensures LateLogged(p, run, n, slot)
  {
    if n > 0 {
      LogsLate(p, run, n - 1, slot);
      LogsLateNext(p, run, n - 1, slot);
    }
  }

  lemma LogsLateNext(p: Plan, run: seq<Sys>, n: nat, slot: Slot)
    requires PlanOk(p) && Run(p, run) && n < |run| - 1 && slot.layer < |p.layers|
    requires LateLogged(p, run, n, slot)
    ensures LateLogged(p, run, n + 1, slot)
  {
    if c :| Late(p, run, n, slot, c) {
      LateIsLogged(p, run, n, slot, c);
      assert LastLate(p, run, n + 1, n, slot, c);
    } else {
      OthersNotLogged(p, run, n, slot);
      if slot in run[n+1].log.late {
        var i :| LastLate(p, run, n, i, slot, run[n].log.late[slot]);
        assert LastLate(p, run, n + 1, i, slot, run[n].log.late[slot]);
      }
    }
  }

  /** Among the slots of reachable states, having an answer and belonging to a stored group are the same. */
  lemma AnsweredIsStored(p: Plan, run: seq<Sys>, i: nat, slot: Slot)
    requires PlanOk(p) && Run(p, run) && i < |run| && slot.layer < |p.layers|
    ensures slot in run[i].log.answers <==> TicketOf(p, slot) in run[i].log.stored
  {
    RunInv(p, run, i);
    assert slot.layer in p.groups[p.groupOf[slot.layer]];
  }

  lemma LateIsLogged(p: Plan, run: seq<Sys>, i: nat, slot: Slot, c: Chunk)
    requires PlanOk(p) && Run(p, run) && i < |run| - 1 && Late(p, run, i, slot, c)
    ensures slot in run[i+1].log.late && run[i+1].log.late[slot] == c
  {
    AnsweredIsStored(p, run, i, slot);
  }

  lemma OthersNotLogged(p: Plan, run: seq<Sys>, i: nat, slot: Slot)
    requires PlanOk(p) && Run(p, run) && i < |run| - 1 && slot.layer < |p.layers|
    requires forall c :: !Late(p, run, i, slot, c)
    ensures slot in run[i+1].log.late <==> slot in run[i].log.late
    ensures slot in run[i].log.late ==> run[i+1].log.late[slot] == run[i].log.late[slot]
  {
    AnsweredIsStored(p, run, i, slot);
    assert Linked(p, run, i);
    var step :| NextStep(p, run[i], run[i+1], step);
    OnlyHooksAreLate(p, run[i], run[i+1], step);
    if step.EndHook? && step.slot == slot {
      assert !Late(p, run, i, slot, step.chunk);
    }
  }

  lemma LastLateUnique(p: Plan, run: seq<Sys>, n: nat, i: nat, j: nat, slot: Slot, c: Chunk, d: Chunk)
    requires PlanOk(p) && n < |run| && LastLate(p, run, n, i, slot, c) && LastLate(p, run, n, j, slot, d)
    ensures c == d
  {
    assert i == j;
    assert run[i+1].s.queued[slot] == c && run[i+1].s.queued[slot] == d;
  }

  /** In every run, a gradient that the optimizer steps with is the Master's answer exactly when no hook ended for its
      slot after the answer had been stored, or the last one that did brought the same chunk. */
  lemma StepsWithAnswersExactlyWhen(p: Plan, run: seq<Sys>, n: nat, k: nat, l: nat)
    requires PlanOk(p) && Run(p, run) && n < |run| && k < |run[n].log.steps| && l < |p.layers|
    ensures var x, slot := run[n].log.steps[k], Slot(run[n].log.steps[k].round, l);
            && |x.chunks| == |p.layers| && slot in run[n].log.answers && Belongs(p, slot, run[n].log.answers[slot])
            && (x.chunks[l] == run[n].log.answers[slot] <==>
                forall i: nat, c | LastLate(p, run, n, i, slot, c) :: c == run[n].log.answers[slot])
  {
    RunInv(p, run, n);
    var x, slot := run[n].log.steps[k], Slot(run[n].log.steps[k].round, l);
    assert StepOk(p, run[n], x);
    LogsLate(p, run, n, slot);
    if slot in run[n].log.late {
      var i :| LastLate(p, run, n, i, slot, run[n].log.late[slot]);
      forall j: nat, d | LastLate(p, run, n, j, slot, d) ensures d == run[n].log.late[slot] {
        LastLateUnique(p, run, n, i, j, slot, run[n].log.late[slot], d);
      }
    }
  }

  // ---------- hooks that fire once ----------

  ghost predicate PendingNew(a: Sys) {
    forall slot | slot in a.pending :: slot !in a.s.queued
  }

  lemma OnceKeepsNew(p: Plan, a: Sys, b: Sys, step: Step)
    requires PlanOk(p) && NextStep(p, a, b, step) && (step.BeginHook? ==> step.layer !in a.fired)
    requires PendingNew(a) && HooksInv(p, a) && TrainerInv(a) && SenderInv(p, a) && TakenInv(p, a)
    ensures PendingNew(b)
  {
    match step
    case StoreGroup(chunks) =>
      StoredSlots(p, a, chunks);
      assert forall slot | slot in b.s.queued :: slot in b.s.queued.Keys && slot in a.s.queued;
    case Finalize =>
      FinalizedFrame(p, a.s, a.s.active.value);
    case _ =>
  }

  lemma OnceIsRun(p: Plan, run: seq<Sys>)
    requires PlanOk(p) && OnceRun(p, run)
    ensures Run(p, run)
  {
    forall i: nat | i < |run| - 1 ensures Linked(p, run, i) {
      assert OnceLinked(p, run, i);
    }
  }

  lemma {:induction false} OnceIsNew(p: Plan, run: seq<Sys>, n: nat)
    requires PlanOk(p) && OnceRun(p, run) && n < |run|
    ensures PendingNew(run[n])
  {
    if n == 0 {
      InitNew();
    } else {
      OnceIsNew(p, run, n - 1);
      OnceRunKeepsNew(p, run, n - 1);
    }
  }

  lemma InitNew()
    ensures PendingNew(Init())
  {
  }

  lemma OnceRunKeepsNew(p: Plan, run: seq<Sys>, n: nat)
    requires PlanOk(p) && OnceRun(p, run) && n < |run| - 1 && PendingNew(run[n])
    ensures PendingNew(run[n+1])
  {
    OnceIsRun(p, run);
    RunInv(p, run, n);
    assert OnceLinked(p, run, n);
    var step :| NextStep(p, run[n], run[n+1], step) && (step.BeginHook? ==> step.layer !in run[n].fired);
    OnceKeepsNew(p, run[n], run[n+1], step);
  }

  lemma StoredIsQueued(p: Plan, a: Sys, slot: Slot)
    requires PlanOk(p) && TakenInv(p, a) && slot.layer < |p.layers|
    ensures TicketOf(p, slot) in a.log.stored && a.s.active == Some(slot.round) ==> slot in a.s.queued
  {
    if TicketOf(p, slot) in a.log.stored && a.s.active == Some(slot.round) {
      assert TakenOk(p, a, TicketOf(p, slot));
      assert slot.layer in p.groups[p.groupOf[slot.layer]];
    }
  }

  /** When hooks fire once per round, none is late. */
  lemma OnceNeverLate(p: Plan, run: seq<Sys>, i: nat, slot: Slot, c: Chunk)
    requires PlanOk(p) && OnceRun(p, run) && i < |run| - 1
    ensures !Late(p, run, i, slot, c)
  {
    OnceIsRun(p, run);
    OnceIsNew(p, run, i);
    RunInv(p, run, i);
    if slot.layer < |p.layers| {
      StoredIsQueued(p, run[i], slot);
    }
  }

  /** Then every gradient that the optimizer steps with is the chunk that the Master returned for that round and
      layer. */
  lemma StepsWithAnswers(p: Plan, run: seq<Sys>, n: nat)
    requires PlanOk(p) && OnceRun(p, run) && n < |run|
    ensures forall k | 0 <= k < |run[n].log.steps| ::
              FromMaster(p, run[n], run[n].log.steps[k].round, run[n].log.steps[k].chunks)
  {
    OnceIsRun(p, run);
    forall k: nat | k < |run[n].log.steps|
      ensures FromMaster(p, run[n], run[n].log.steps[k].round, run[n].log.steps[k].chunks)
    {
      StepIsComplete(p, run, n, k);
      forall l: nat | l < |p.layers| ensures AppliesAnswer(p, run[n], run[n].log.steps[k], l) {
        OnceAppliesAnswer(p, run, n, k, l);
      }
      AllApplied(p, run[n], run[n].log.steps[k]);
    }
  }

  lemma AllApplied(p: Plan, a: Sys, x: OptimizerStep)
    requires |x.chunks| == |p.layers| && forall l: nat | l < |p.layers| :: AppliesAnswer(p, a, x, l)
    ensures FromMaster(p, a, x.round, x.chunks)
  {
    assert forall l: nat | l < |p.layers| :: AppliesAnswer(p, a, x, l) && Slot(x.round, l) in a.log.answers;
  }

  ghost predicate AppliesAnswer(p: Plan, a: Sys, x: OptimizerStep, l: nat) {
    var slot := Slot(x.round, l);
    && l < |x.chunks| && slot in a.log.answers
    && x.chunks[l] == a.log.answers[slot] && Belongs(p, slot, x.chunks[l])
  }

  lemma StepIsComplete(p: Plan, run: seq<Sys>, n: nat, k: nat)
    requires PlanOk(p) && Run(p, run) && n < |run| && k < |run[n].log.steps|
    ensures |run[n].log.steps[k].chunks| == |p.layers|
  {
    RunInv(p, run, n);
    assert StepOk(p, run[n], run[n].log.steps[k]);
  }

  lemma OnceAppliesAnswer(p: Plan, run: seq<Sys>, n: nat, k: nat, l: nat)
    requires PlanOk(p) && OnceRun(p, run) && n < |run| && k < |run[n].log.steps| && l < |p.layers|
    ensures AppliesAnswer(p, run[n], run[n].log.steps[k], l)
  {
    OnceIsRun(p, run);
    StepsWithAnswersExactlyWhen(p, run, n, k, l);
    var slot := Slot(run[n].log.steps[k].round, l);
    forall i: nat, c ensures !LastLate(p, run, n, i, slot, c) {
      if i < n {
        OnceNeverLate(p, run, i, slot, c);
      }
    }
  }

  // ---------- a late hook that does harm ----------

  lemma Extended(p: Plan, run: seq<Sys>, b: Sys, step: Step)
    requires PlanOk(p) && Run(p, run) && NextStep(p, run[|run| - 1], b, step)
    ensures Run(p, run + [b])
  {
    var longer := run + [b];
    forall i: nat | i < |longer| - 1 ensures Linked(p, longer, i) {
      if i < |run| - 1 {
        assert Linked(p, run, i);
      }
    }
  }

  /** The training thread can call step() and finds every group of the round returned. */
  ghost predicate GateOpen(p: Plan, s: State, r: nat) {
    s.active == Some(r) && r !in s.failed && r !in s.applied && Of(s.returned, r) == Tickets(p, r)
  }

  lemma {:induction false} NothingFilled(p: Plan, queued: map<Slot, Chunk>, round: nat, n: nat)
    requires n <= |p.layers| && forall l: nat | l < n :: Slot(round, l) in queued
    ensures Filled(p, queued, round, n) == queued
  {
    if n > 0 {
      NothingFilled(p, queued, round, n - 1);
    }
  }

  lemma {:induction false} NothingEnqueued(p: Plan, s: State, round: nat, n: nat)
    requires n <= |p.groups| && forall g: nat | g < n :: Ticket(round, g) in s.returned
    ensures AllEnqueued(p, s, round, n) == s
  {
    if n > 0 {
      NothingEnqueued(p, s, round, n - 1);
    }
  }

  lemma ReturnedAll(p: Plan, s: State, r: nat)
    requires Of(s.returned, r) == Tickets(p, r)
    ensures forall g: nat | g < |p.groups| :: Ticket(r, g) in s.returned
  {
    forall g: nat | g < |p.groups| ensures Ticket(r, g) in s.returned {
      assert Ticket(r, g) in Tickets(p, r);
    }
  }

  lemma ReturnedQueued(p: Plan, a: Sys, r: nat)
    requires PlanOk(p) && AnswersInv(p, a) && Of(a.s.returned, r) == Tickets(p, r)
    ensures forall l: nat | l < |p.layers| :: Slot(r, l) in a.s.queued
  {
    ReturnedAll(p, a.s, r);
    forall l: nat | l < |p.layers| ensures Slot(r, l) in a.s.queued {
      assert l in p.groups[p.groupOf[l]];
      assert Ticket(r, p.groupOf[l]) in a.s.returned;
      assert Answered(a, Slot(r, l));
    }
  }

  lemma GateFinalizes(p: Plan, a: Sys, r: nat)
    requires PlanOk(p) && a.trainer == Backward && a.pending == {} && GateOpen(p, a.s, r)
    requires forall l: nat | l < |p.layers| :: Slot(r, l) in a.s.queued
    ensures Finalizes(p, a, a.(trainer := Waiting(r)))
  {
    NothingFilled(p, a.s.queued, r, |p.layers|);
    ReturnedAll(p, a.s, r);
    assert a.s.(queued := a.s.queued) == a.s;
    NothingEnqueued(p, a.s, r, |p.groups|);
    assert WithEmpty(a.log.locals, a.s.queued, a.s.queued) == a.log.locals;
    assert a.log.enqueuings + a.s.order[|a.s.order|..] == a.log.enqueuings;
  }

  /** From such a state step() goes through with what the slots hold. */
  lemma StepsThrough(p: Plan, run: seq<Sys>, r: nat) returns (longer: seq<Sys>)
    requires PlanOk(p) && Run(p, run)
    requires var a := run[|run| - 1];
             && a.trainer == Backward && a.pending == {} && GateOpen(p, a.s, r)
             && (forall l: nat | l < |p.layers| :: Slot(r, l) in a.s.queued)
    ensures Run(p, longer) && run <= longer
    ensures var a, b := run[|run| - 1], longer[|longer| - 1];
            && b.log == a.log.(steps := a.log.steps + [OptimizerStep(r, Ordered(p, a.s.queued, r))])
  {
    var a := run[|run| - 1];
    var a1 := a.(trainer := Waiting(r));
    GateFinalizes(p, a, r);
    Extended(p, run, a1, Finalize);
    longer := run + [a1];
    longer := FromWaiting(p, longer, r);
  }

  lemma FromWaiting(p: Plan, run: seq<Sys>, r: nat) returns (longer: seq<Sys>)
    requires PlanOk(p) && Run(p, run)
    requires var a := run[|run| - 1];
             && a.trainer == Waiting(r) && GateOpen(p, a.s, r)
             && (forall l: nat | l < |p.layers| :: Slot(r, l) in a.s.queued)
    ensures Run(p, longer) && run <= longer
    ensures var a, b := run[|run| - 1], longer[|longer| - 1];
            && b.log == a.log.(steps := a.log.steps + [OptimizerStep(r, Ordered(p, a.s.queued, r))])
  {
    var a := run[|run| - 1];
    var chunks := Ordered(p, a.s.queued, r);
    var a2 := a.(trainer := Complete(r));
    var a3 := a2.(trainer := Applying(r, chunks));
    var a4 := a3.(s := MarkedApplied(p, a3.s, r), trainer := Applied(r, chunks));
    var a5 := a4.(trainer := Finishing, log := a4.log.(steps := a4.log.steps + [OptimizerStep(r, chunks)]));
    Extended(p, run, a2, WaitDone);
    Extended(p, run + [a2], a3, ReadChunks);
    Extended(p, run + [a2] + [a3], a4, ApplyDone);
    Extended(p, run + [a2] + [a3] + [a4], a5, StepOptimizer);
    longer := run + [a2] + [a3] + [a4] + [a5];
  }

  /** A hook that is still running when all answers are in: whatever chunk it brings, the optimizer can step with that
      chunk in the place of the answer. */
  lemma LateHookTakesEffect(p: Plan, run: seq<Sys>, slot: Slot, c: Chunk) returns (longer: seq<Sys>)
    requires PlanOk(p) && Run(p, run)
    requires var a := run[|run| - 1]; a.trainer == Backward && a.pending == {slot} && GateOpen(p, a.s, slot.round)
    ensures Run(p, longer) && run <= longer && slot.layer < |p.layers|
    ensures var a, b := run[|run| - 1], longer[|longer| - 1];
            && slot in a.log.answers && b.log.answers == a.log.answers
            && b.log.steps != []
            && var x := b.log.steps[|b.log.steps| - 1];
               x.round == slot.round && |x.chunks| == |p.layers| && x.chunks[slot.layer] == c
  {
    PendingIsKnown(p, run, slot);
    EndsLate(p, run, slot, c);
    longer := StepsThrough(p, run + [AfterHook(p, run[|run| - 1], slot, c)], slot.round);
    assert slot == Slot(slot.round, slot.layer);
  }

  lemma PendingIsKnown(p: Plan, run: seq<Sys>, slot: Slot)
    requires PlanOk(p) && Run(p, run) && slot in run[|run| - 1].pending
    ensures slot.layer < |p.layers|
  {
    RunInv(p, run, |run| - 1);
    assert PendingOk(p, run[|run| - 1], slot);
  }

  lemma EndsLate(p: Plan, run: seq<Sys>, slot: Slot, c: Chunk)
    requires PlanOk(p) && Run(p, run) && slot.layer < |p.layers|
    requires var a := run[|run| - 1]; slot in a.pending && Of(a.s.returned, slot.round) == Tickets(p, slot.round)
    ensures Run(p, run + [AfterHook(p, run[|run| - 1], slot, c)])
    ensures var a := run[|run| - 1];
            slot in a.log.answers && forall l: nat | l < |p.layers| :: Slot(slot.round, l) in a.s.queued
  {
    var a := run[|run| - 1];
    RunInv(p, run, |run| - 1);
    ReturnedQueued(p, a, slot.round);
    HookChanges(p, a, slot, c);
    Extended(p, run, AfterHook(p, a, slot, c), EndHook(slot, c));
  }

  ghost function AfterHook(p: Plan, a: Sys, slot: Slot, c: Chunk): Sys
    requires PlanOk(p) && slot.layer < |p.layers|
  {
    a.(s := a.s.(queued := a.s.queued[slot := c]), pending := a.pending - {slot}, log := WithHook(p, a.log, slot, c))
  }

  lemma HookChanges(p: Plan, a: Sys, slot: Slot, c: Chunk)
    requires PlanOk(p) && slot in a.pending && slot.layer < |p.layers|
    requires AnswersInv(p, a) && Of(a.s.returned, slot.round) == Tickets(p, slot.round)
    ensures HookEnds(p, a, AfterHook(p, a, slot, c), slot, c)
    ensures slot in a.log.answers
  {
    ReturnedAll(p, a.s, slot.round);
    assert TicketOf(p, slot) in a.s.returned;
    assert a.log.enqueuings + a.s.order[|a.s.order|..] == a.log.enqueuings;
    assert slot.layer in p.groups[p.groupOf[slot.layer]];
    assert Answered(a, slot);
  }

  // ---------- a second backward pass before step() ----------

  function FloatBytes(c: Chunk): nat {
    4 * |c.values|
  }

  /** One parameter with one element. */
  ghost function OnePlan(): Plan {
    Plan([Layer("w", 1)], [[0]], [0], 256, 1000, FloatBytes)
  }

  function DenseValue(value: real): Chunk {
    Chunk("w", 0, 1, true, Dense, [], [], [value], 1)
  }

  /** The hook has ended and its group waits in the queue. */
  ghost predicate HasFired(x: Sys) {
    && x.trainer == Backward && x.pending == {} && x.sender == Idle
    && x.s == INITIAL.(active := Some(1), queued := map[Slot(1, 0) := DenseValue(1.0)], order := [Ticket(1, 0)],
                       enqueued := {Ticket(1, 0)})
    && x.log.answers == map[]
  }

  lemma FiredRun() returns (run: seq<Sys>)
    ensures PlanOk(OnePlan()) && Run(OnePlan(), run) && HasFired(run[|run| - 1])
  {
    var p, slot, c := OnePlan(), Slot(1, 0), DenseValue(1.0);
    var a := Init();
    var b := a.(s := Opened(a.s), fired := {0}, pending := {slot});
    var s := ChunkQueued(p, b.s, slot, c);
    assert p.groups[0] == [0];
    assert Ready(p, map[slot := c], Ticket(1, 0));
    assert b.s.queued[slot := c] == map[slot := c];
    var d := b.(s := s, pending := b.pending - {slot}, log := WithHook(p, b.log, slot, c).(enqueuings := s.order));
    assert [] + s.order[0..] == s.order;
    run := [a];
    Extended(p, run, b, BeginHook(0));
    Extended(p, run + [b], d, EndHook(slot, c));
    run := run + [b] + [d];
  }

  /** The group has been taken. */
  ghost predicate HasTaken(x: Sys) {
    && x.trainer == Backward && x.pending == {} && x.sender.Collecting?
    && x.sender.round == 1 && x.sender.batch == [Ticket(1, 0)]
    && x.s == INITIAL.(active := Some(1), queued := map[Slot(1, 0) := DenseValue(1.0)], submitted := {Ticket(1, 0)},
                       inflight := {Ticket(1, 0)})
    && x.log.answers == map[]
  }

  lemma TakenRun() returns (run: seq<Sys>)
    ensures PlanOk(OnePlan()) && Run(OnePlan(), run) && HasTaken(run[|run| - 1])
  {
    run := FiredRun();
    var p, t := OnePlan(), Ticket(1, 0);
    var a := run[|run| - 1];
    assert p.groups[0] == [0];
    assert Ready(p, a.s.queued, t) && Taken(p, a.s);
    var b := a.(s := Popped(p, a.s), sender := Collecting(1, [t], GroupBytes(p, a.s.queued, t)), log := WithTaken(p, a, t));
    Extended(p, run, b, PopFirst);
    run := run + [b];
    assert b.s.order == [] && b.s.enqueued == {};
  }

  /** The group is on its way and the Master has answered. */
  ghost predicate HasSent(x: Sys) {
    && x.trainer == Backward && x.pending == {} && x.sender == Storing(1, [Ticket(1, 0)], 0)
    && x.s == INITIAL.(active := Some(1), queued := map[Slot(1, 0) := DenseValue(1.0)], submitted := {Ticket(1, 0)},
                       inflight := {Ticket(1, 0)})
    && x.log.answers == map[]
  }

  lemma SentRun() returns (run: seq<Sys>)
    ensures PlanOk(OnePlan()) && Run(OnePlan(), run) && HasSent(run[|run| - 1])
  {
    run := TakenRun();
    var p, t := OnePlan(), Ticket(1, 0);
    var a := run[|run| - 1];
    var b := a.(sender := Sending(1, [t]));
    var c := b.(sender := Storing(1, [t], 0));
    Extended(p, run, b, CloseBatch);
    Extended(p, run + [b], c, Respond);
    run := run + [b] + [c];
  }

  /** The answer is stored. */
  ghost predicate HasStored(x: Sys) {
    && x.trainer == Backward && x.pending == {} && x.s.active == Some(1) && x.s.failed == {} && x.s.applied == {}
    && x.s.nextRound == 1 && x.s.returned == {Ticket(1, 0)}
    && Slot(1, 0) in x.log.answers && x.log.answers[Slot(1, 0)] == DenseValue(2.0)
  }

  lemma StoredRun() returns (run: seq<Sys>)
    ensures PlanOk(OnePlan()) && Run(OnePlan(), run) && HasStored(run[|run| - 1])
  {
    run := SentRun();
    var p, t, answer := OnePlan(), Ticket(1, 0), DenseValue(2.0);
    var a := run[|run| - 1];
    assert p.groups[0] == [0];
    assert MemberFits(p, t, 0, answer);
    assert Fitting(p, t, [answer], 0) == 1;
    OverwrittenIs(p, a.s.queued, t, [answer], 1);
    OverwrittenIs(p, a.log.answers, t, [answer], 1);
    var b := a.(s := Stored(p, a.s, t, [answer]), sender := Storing(1, [t], 1),
                log := a.log.(stored := a.log.stored + {t}, answers := Overwritten(p, a.log.answers, t, [answer], 1)));
    Extended(p, run, b, StoreGroup([answer]));
    run := run + [b];
    assert b.s.returned == {t};
  }

  /** A second backward pass has begun. */
  lemma AnsweredRun() returns (run: seq<Sys>)
    ensures PlanOk(OnePlan()) && Run(OnePlan(), run)
    ensures var x := run[|run| - 1];
            && x.trainer == Backward && x.pending == {Slot(1, 0)} && GateOpen(OnePlan(), x.s, 1)
            && Slot(1, 0) in x.log.answers && x.log.answers[Slot(1, 0)] == DenseValue(2.0)
  {
    run := StoredRun();
    var p := OnePlan();
    var a := run[|run| - 1];
    var b := a.(fired := a.fired + {0}, pending := {Slot(1, 0)});
    Extended(p, run, b, BeginHook(0));
    run := run + [b];
    assert Tickets(p, 1) == {Ticket(1, 0)};
  }

  /** The hook fires, its group is sent and answered, and a second backward pass fires the hook again before step():
      the optimizer steps with the local gradient 3 where the Master answered 2. */
  lemma LateHookExample() returns (run: seq<Sys>)
    ensures PlanOk(OnePlan()) && Run(OnePlan(), run)
    ensures var b := run[|run| - 1];
            && Slot(1, 0) in b.log.answers && b.log.answers[Slot(1, 0)] == DenseValue(2.0)
            && b.log.steps != []
            && b.log.steps[|b.log.steps| - 1].round == 1
            && b.log.steps[|b.log.steps| - 1].chunks == [DenseValue(3.0)]
            && DenseValue(3.0) != DenseValue(2.0)
  {
    var p := OnePlan();
    run := AnsweredRun();
    run := LateHookTakesEffect(p, run, Slot(1, 0), DenseValue(3.0));
    assert DenseValue(3.0).values[0] != DenseValue(2.0).values[0];
  }
}
