/** Rounds of the prepared runtime from their start to their end: they are numbered 1, 2, 3, ..., a round that has failed
    sends nothing more, a shutdown ends all sending, and a finished round leaves nothing behind. */
module PreparedFailures {
  import opened Wrappers
  import opened Gradients
  import opened PreparedSpec
  import opened PreparedRuns
  import PreparedSafety

  // ---------- numbers ----------

  /** The finished rounds are 1, 2, 3, ..., and the next round follows them. */
  ghost predicate Counted(s: State) {
    s.nextRound == |s.completed| + 1 && forall i | 0 <= i < |s.completed| :: s.completed[i] == i + 1
  }

  lemma StepCounts(p: Plan, a: Sys, b: Sys, step: Step)
    requires PlanOk(p) && NextStep(p, a, b, step) && RoundsInv(a) && Counted(a.s)
    ensures Counted(b.s)
  {
    match step
    case Finalize => FinalizeFrame(p, a, b);
    case FinishStep =>
    case _ =>
  }

  lemma FinalizeFrame(p: Plan, a: Sys, b: Sys)
    requires Finalizes(p, a, b)
    ensures b.s == a.s.(queued := b.s.queued, order := b.s.order, enqueued := b.s.enqueued)
    ensures b.sender == a.sender && b.log.taken == a.log.taken && b.log.steps == a.log.steps
  {
    var r := a.s.active.value;
    AllEnqueuedFrame(p, a.s.(queued := Filled(p, a.s.queued, r, |p.layers|)), r, |p.groups|);
  }

  /** In every run: the rounds that have finished are 1, 2, 3, ..., each once, and the one that is active is the next. */
  lemma {:induction false} RoundsCount(p: Plan, run: seq<Sys>, i: nat)
    requires PlanOk(p) && Run(p, run) && i < |run|
    ensures Counted(run[i].s)
    ensures run[i].s.active.Some? ==> run[i].s.active.value == |run[i].s.completed| + 1
  {
    RunQueues(p, run, i);
    if i > 0 {
      RoundsCount(p, run, i - 1);
      LinkedCounts(p, run, i - 1);
    }
  }

  lemma LinkedCounts(p: Plan, run: seq<Sys>, i: nat)
    requires PlanOk(p) && Run(p, run) && i < |run| - 1 && Counted(run[i].s)
    ensures Counted(run[i+1].s)
  {
    RunQueues(p, run, i);
    assert Linked(p, run, i);
    var step :| NextStep(p, run[i], run[i+1], step);
    StepCounts(p, run[i], run[i+1], step);
  }

  // ---------- what is taken to be sent ----------

  /** The round is over, or it has failed. */
  predicate Dead(s: State, r: nat) {
    r < s.nextRound || r in s.failed
  }

  lemma DeadStays(p: Plan, a: Sys, b: Sys, step: Step, r: nat)
    requires PlanOk(p) && NextStep(p, a, b, step) && RoundsInv(a) && Dead(a.s, r)
    ensures Dead(b.s, r)
  {
    match step
    case Finalize => FinalizeFrame(p, a, b);
    case _ =>
  }

  /** Only a group of the active round is taken, and only while the round has not failed. */
  lemma StepTakes(p: Plan, a: Sys, b: Sys, step: Step)
    requires PlanOk(p) && NextStep(p, a, b, step) && RoundsInv(a) && QueueInv(p, a.s)
    ensures b.log.taken == a.log.taken ||
            (a.s.order != [] && b.log.taken == a.log.taken + [a.s.order[0]] && !Dead(a.s, a.s.order[0].round)
             && (step.PopFirst? || (step.PopMore? && a.sender.Collecting? && a.s.order[0].round == a.sender.round)))
  {
    match step
    case Finalize => FinalizeFrame(p, a, b);
    case PopFirst => assert QueuedOk(p, a.s, a.s.order[0]);
    case PopMore => assert QueuedOk(p, a.s, a.s.order[0]);
    case _ =>
  }

  /** Every run: once a round has failed or is over, no group of it is taken any more. */
  lemma {:induction false} FailedSendsNothing(p: Plan, run: seq<Sys>, i: nat, j: nat, r: nat, t: Ticket)
    requires PlanOk(p) && Run(p, run) && i <= j < |run| && Dead(run[i].s, r)
    requires t.round == r && t in run[j].log.taken
    ensures Dead(run[j].s, r) && t in run[i].log.taken
    decreases j
  {
    DeadThrough(p, run, i, j, r);
    if i < j {
      DeadThrough(p, run, i, j - 1, r);
      LinkedTakes(p, run, j - 1, t);
      FailedSendsNothing(p, run, i, j - 1, r, t);
    }
  }

  lemma LinkedTakes(p: Plan, run: seq<Sys>, i: nat, t: Ticket)
    requires PlanOk(p) && Run(p, run) && i < |run| - 1 && Dead(run[i].s, t.round) && t in run[i+1].log.taken
    ensures t in run[i].log.taken
  {
    RunQueues(p, run, i);
    assert Linked(p, run, i);
    var step :| NextStep(p, run[i], run[i+1], step);
    StepTakes(p, run[i], run[i+1], step);
  }

  lemma RunQueues(p: Plan, run: seq<Sys>, i: nat)
    requires PlanOk(p) && Run(p, run) && i < |run|
    ensures RoundsInv(run[i]) && QueueInv(p, run[i].s)
    ensures run[i].sender.Collecting? ==> Known(run[i], run[i].sender.round)
  {
    PreparedSafety.RunInv(p, run, i);
  }

  lemma {:induction false} DeadThrough(p: Plan, run: seq<Sys>, i: nat, j: nat, r: nat)
    requires PlanOk(p) && Run(p, run) && i <= j < |run| && Dead(run[i].s, r)
    ensures Dead(run[j].s, r)
    decreases j
  {
    if i < j {
      DeadThrough(p, run, i, j - 1, r);
      RunQueues(p, run, j - 1);
      assert Linked(p, run, j - 1);
      var step :| NextStep(p, run[j-1], run[j], step);
      DeadStays(p, run[j-1], run[j], step, r);
    }
  }

  // ---------- why a round fails ----------

  /** Why a round can fail: step() waited too long for some group, which never happens in the first round, or could not
      apply the answers or found the round failed; the sender could not send or store a batch of it; or the runtime was
      shut down. */
  ghost predicate FailureCause(p: Plan, a: Sys, step: Step, r: nat) {
    match step
    case TimeOut => a.trainer == Waiting(r) && r > 1 && exists g: nat :: g < |p.groups| && Ticket(r, g) !in a.s.returned
    case FailRaised => a.trainer == Raised(r)
    case FailBatch => a.sender.Failing? && a.sender.round == r
    case Shutdown => a.s.active == Some(r)
    case _ => false
  }

  lemma SomeMissing(p: Plan, a: Sys, r: nat)
    requires SetsInv(p, a) && Of(a.s.returned, r) != Tickets(p, r)
    ensures exists g: nat :: g < |p.groups| && Ticket(r, g) !in a.s.returned
  {
    forall t | t in Of(a.s.returned, r) ensures t in Tickets(p, r) {
      assert Current(p, a, t);
    }
    var t :| t in Tickets(p, r) && t !in Of(a.s.returned, r);
    assert Ticket(r, t.group) !in a.s.returned;
  }

  /** Every run: nothing else makes a round fail. */
  lemma FailuresCaused(p: Plan, run: seq<Sys>, i: nat, step: Step, r: nat)
    requires PlanOk(p) && Run(p, run) && i < |run| - 1 && NextStep(p, run[i], run[i+1], step)
    requires r in run[i+1].s.failed && r !in run[i].s.failed
    ensures FailureCause(p, run[i], step, r)
  {
    var a := run[i];
    match step
    case Finalize => FinalizeFrame(p, a, run[i+1]);
    case TimeOut =>
      PreparedSafety.RunInv(p, run, i);
      SomeMissing(p, a, r);
    case _ =>
  }

  /** And step() raises an error only when its round has failed or the answers could not be applied. */
  lemma RaisesWhen(p: Plan, a: Sys, b: Sys, step: Step)
    requires PlanOk(p) && NextStep(p, a, b, step) && !a.trainer.Raised? && b.trainer.Raised?
    ensures a.trainer.Applying? || (a.trainer == Waiting(b.trainer.round) && b.trainer.round in b.s.failed)
  {
  }

  /** step() goes on from its wait only when every group of the round has returned and the round has not failed. */
  lemma CompletesWhen(p: Plan, run: seq<Sys>, i: nat, step: Step)
    requires PlanOk(p) && Run(p, run) && i < |run| - 1 && NextStep(p, run[i], run[i+1], step)
    requires run[i].trainer.Waiting? && run[i+1].trainer.Complete?
    ensures var r := run[i].trainer.round;
            && run[i+1].trainer.round == r && r !in run[i].s.failed
            && (forall g: nat :: Ticket(r, g) in run[i].s.returned <==> g < |p.groups|)
  {
    var a, r := run[i], run[i].trainer.round;
    assert Of(a.s.returned, r) == Tickets(p, r);
    forall g: nat ensures Ticket(r, g) in a.s.returned <==> g < |p.groups| {
      assert Ticket(r, g) in a.s.returned <==> Ticket(r, g) in Of(a.s.returned, r);
    }
  }

  // ---------- what comes back ----------

  /** The groups of the response that have been gone through are stored. */
  ghost predicate StoredSoFar(a: Sys) {
    a.sender.Storing? ==> a.sender.n <= |a.sender.batch| && forall k | 0 <= k < a.sender.n :: a.sender.batch[k] in a.log.stored
  }

  lemma StepStores(p: Plan, a: Sys, b: Sys, step: Step)
    requires PlanOk(p) && NextStep(p, a, b, step) && StoredSoFar(a)
    ensures StoredSoFar(b)
  {
    match step
    case Finalize => FinalizeFrame(p, a, b);
    case _ =>
  }

  lemma {:induction false} RunStores(p: Plan, run: seq<Sys>, i: nat)
    requires PlanOk(p) && Run(p, run) && i < |run|
    ensures StoredSoFar(run[i])
  {
    if i > 0 {
      RunStores(p, run, i - 1);
      assert Linked(p, run, i - 1);
      var step :| NextStep(p, run[i-1], run[i], step);
      StepStores(p, run[i-1], run[i], step);
    }
  }

  /** Every run: when the sender is done with a response, the answers of all groups of the batch have been stored and
      none of them is in flight. */
  lemma BatchStoredWhole(p: Plan, run: seq<Sys>, i: nat, t: Ticket)
    requires PlanOk(p) && Run(p, run) && i < |run| - 1 && NextStep(p, run[i], run[i+1], StoreDone)
    requires t in BatchOf(run[i].sender)
    ensures t in run[i+1].log.stored && t !in run[i+1].s.inflight
  {
    RunStores(p, run, i);
    PreparedSafety.RunInv(p, run, i);
    var k :| 0 <= k < |run[i].sender.batch| && run[i].sender.batch[k] == t;
  }

  // ---------- shutdown ----------

  /** After a shutdown, a batch that is still being collected is one of a dead round. */
  ghost predicate Closing(a: Sys) {
    a.s.shutdown && (a.sender.Collecting? ==> Dead(a.s, a.sender.round))
  }

  lemma StepCloses(p: Plan, a: Sys, b: Sys, step: Step)
    requires PlanOk(p) && NextStep(p, a, b, step) && RoundsInv(a) && QueueInv(p, a.s) && (step.Shutdown? || Closing(a))
    requires a.sender.Collecting? ==> Known(a, a.sender.round)
    ensures Closing(b) && b.log.taken == a.log.taken
  {
    StepTakes(p, a, b, step);
    if a.sender.Collecting? && Dead(a.s, a.sender.round) {
      DeadStays(p, a, b, step, a.sender.round);
    }
    match step
    case Finalize => FinalizeFrame(p, a, b);
    case Shutdown =>
    case _ =>
  }

  lemma LinkedCloses(p: Plan, run: seq<Sys>, i: nat)
    requires PlanOk(p) && Run(p, run) && i < |run| - 1 && Closing(run[i])
    ensures Closing(run[i+1]) && run[i+1].log.taken == run[i].log.taken
  {
    RunQueues(p, run, i);
    assert Linked(p, run, i);
    var step :| NextStep(p, run[i], run[i+1], step);
    StepCloses(p, run[i], run[i+1], step);
  }

  /** Every run: from a shutdown on no group is taken to be sent any more, whatever rounds are still opened. */
  lemma {:induction false} ShutdownSendsNothing(p: Plan, run: seq<Sys>, i: nat, j: nat)
    requires PlanOk(p) && Run(p, run) && i < j < |run| && NextStep(p, run[i], run[i+1], Shutdown)
    ensures Closing(run[j]) && run[j].log.taken == run[i].log.taken
    decreases j
  {
    if i + 1 == j {
      RunQueues(p, run, i);
      StepCloses(p, run[i], run[j], Shutdown);
    } else {
      ShutdownSendsNothing(p, run, i, j - 1);
      LinkedCloses(p, run, j - 1);
    }
  }

  // ---------- the end of a round ----------

  /** The round is marked as applied from the moment its gradients were applied until it is finished, and no other
      round ever is. */
  ghost predicate AppliedMarks(a: Sys) {
    match a.trainer
    case Applied(r, _) => a.s.applied == {r}
    case Finishing => a.s.active.Some? && a.s.applied == if Stepped(a, a.s.active.value) then {a.s.active.value} else {}
    case _ => a.s.applied == {}
  }

  ghost predicate Stepped(a: Sys, r: nat) {
    exists i :: 0 <= i < |a.log.steps| && a.log.steps[i].round == r
  }

  lemma NotStepped(p: Plan, a: Sys)
    requires RoundsInv(a) && StepsInv(p, a) && a.s.active.Some? && a.trainer != Finishing
    ensures !Stepped(a, a.s.active.value)
  {
    forall i | 0 <= i < |a.log.steps| ensures a.log.steps[i].round != a.s.active.value {
      assert StepOk(p, a, a.log.steps[i]);
    }
  }

  /** A step of a hook, of the sender or of whoever shuts down. */
  predicate ByOthers(step: Step) {
    step.BeginHook? || step.EndHook? || step.BeginCapture? || step.PopFirst? || step.PopMore? || step.CloseBatch? ||
    step.Respond? || step.StoreGroup? || step.StoreDone? || step.SendFailed? || step.FailBatch? || step.StopSender? ||
    step.Shutdown?
  }

  lemma OthersKeepMarks(p: Plan, a: Sys, b: Sys, step: Step)
    requires PlanOk(p) && NextStep(p, a, b, step) && ByOthers(step)
    ensures b.trainer == a.trainer && b.s.applied == a.s.applied && b.log.steps == a.log.steps
    ensures a.s.active.Some? ==> b.s.active == a.s.active
  {
  }

  lemma SameMarks(a: Sys, b: Sys)
    requires b.trainer == a.trainer && b.s.applied == a.s.applied && b.log.steps == a.log.steps
    requires a.s.active.Some? ==> b.s.active == a.s.active
    requires AppliedMarks(a)
    ensures AppliedMarks(b)
  {
    if a.s.active.Some? {
      SameSteps(a, b, a.s.active.value);
    }
  }

  lemma TrainerMarks(p: Plan, a: Sys, b: Sys, step: Step)
    requires PlanOk(p) && NextStep(p, a, b, step) && !ByOthers(step)
    requires RoundsInv(a) && TrainerInv(a) && StepsInv(p, a) && AppliedMarks(a)
    ensures AppliedMarks(b)
  {
    match step
    case Finalize => FinalizeFrame(p, a, b);
    case FailRaised =>
      NotStepped(p, a);
      SameSteps(a, b, a.trainer.round);
    case StepOptimizer => assert b.log.steps[|a.log.steps|].round == a.trainer.round;
    case _ =>
  }

  lemma StepMarks(p: Plan, a: Sys, b: Sys, step: Step)
    requires PlanOk(p) && NextStep(p, a, b, step) && RoundsInv(a) && TrainerInv(a) && StepsInv(p, a) && AppliedMarks(a)
    ensures AppliedMarks(b)
  {
    if ByOthers(step) {
      OthersKeepMarks(p, a, b, step);
      SameMarks(a, b);
    } else {
      TrainerMarks(p, a, b, step);
    }
  }

  lemma SameSteps(a: Sys, b: Sys, r: nat)
    ensures b.log.steps == a.log.steps ==> (Stepped(b, r) <==> Stepped(a, r))
  {
  }

  /** Every run: while a round is being finished it is marked as applied exactly when the optimizer has stepped with its
      answers. */
  lemma {:induction false} AppliedExactlyWhen(p: Plan, run: seq<Sys>, i: nat)
    requires PlanOk(p) && Run(p, run) && i < |run|
    ensures AppliedMarks(run[i])
  {
    if i > 0 {
      AppliedExactlyWhen(p, run, i - 1);
      LinkedMarks(p, run, i - 1);
    }
  }

  lemma LinkedMarks(p: Plan, run: seq<Sys>, i: nat)
    requires PlanOk(p) && Run(p, run) && i < |run| - 1 && AppliedMarks(run[i])
    ensures AppliedMarks(run[i+1])
  {
    RunSteps(p, run, i);
    assert Linked(p, run, i);
    var step :| NextStep(p, run[i], run[i+1], step);
    StepMarks(p, run[i], run[i+1], step);
  }

  lemma RunSteps(p: Plan, run: seq<Sys>, i: nat)
    requires PlanOk(p) && Run(p, run) && i < |run|
    ensures RoundsInv(run[i]) && TrainerInv(run[i]) && StepsInv(p, run[i])
  {
    PreparedSafety.RunInv(p, run, i);
  }

  lemma NothingQueued(p: Plan, s: State)
    requires QueueInv(p, s) && s.active.None?
    ensures s.order == [] && s.enqueued == {}
  {
    forall t | t in s.order ensures QueuedOk(p, s, t) {
    }
    EmptyOrFirst(s.order);
  }

  lemma EmptyOrFirst<T>(s: seq<T>)
    ensures s == [] || s[0] in s
  {
  }

  /** When a round is finished nothing of it is left anywhere, and there is nothing of any other round. */
  lemma FinishedClean(p: Plan, run: seq<Sys>, i: nat)
    requires PlanOk(p) && Run(p, run) && i < |run| - 1 && NextStep(p, run[i], run[i+1], FinishStep)
    ensures run[i].s.active.Some?
    ensures var r, s := run[i].s.active.value, run[i+1].s;
            && s.active.None? && s.queued == map[] && s.order == [] && s.enqueued == {}
            && s.submitted == {} && s.inflight == {} && s.returned == {} && s.applied == {} && r !in s.failed
            && s.completed == run[i].s.completed + [r] && s.nextRound == r + 1
  {
    PreparedSafety.RunInv(p, run, i);
    PreparedSafety.RunInv(p, run, i + 1);
    AppliedExactlyWhen(p, run, i + 1);
    var b := run[i+1];
    NothingQueued(p, b.s);
    assert b.s.queued.Keys == {};
  }

  /** When a round is marked as applied exactly the groups of the plan count as returned for it; other rounds are not
      touched. */
  lemma AppliedIs(p: Plan, s: State, r: nat)
    ensures var m := MarkedApplied(p, s, r);
            && m == s.(returned := m.returned, applied := s.applied + {r})
            && (forall t: Ticket | t.round == r :: t in m.returned <==> t.group < |p.groups|)
            && (forall t: Ticket | t.round != r :: t in m.returned <==> t in s.returned)
  {
  }

  /** When a round has failed none of its groups waits, is marked, or is in flight; what was queued and what has been
      returned stays, and other rounds are not touched. */
  lemma FailedIs(s: State, r: nat)
    ensures var f := RoundFailed(s, r);
            && f == s.(failed := f.failed, order := f.order, enqueued := f.enqueued, submitted := f.submitted,
                       inflight := f.inflight)
            && f.failed == s.failed + {r}
            && (forall t: Ticket | t.round == r ::
                  t !in f.order && t !in f.enqueued && t !in f.submitted && t !in f.inflight)
            && (forall t: Ticket | t.round != r ::
                  && (t in f.order <==> t in s.order) && (t in f.enqueued <==> t in s.enqueued)
                  && (t in f.submitted <==> t in s.submitted) && (t in f.inflight <==> t in s.inflight))
  {
  }
}
