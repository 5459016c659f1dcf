/** The promises of the prepared runtime, for every run. */
module PreparedProperties {
  import opened Wrappers
  import opened Gradients
  import opened PreparedSpec
  import opened PreparedRuns
  import opened PreparedSafety
  import opened PreparedSizes
  import opened Sums

  /** At any time the queue holds exactly what is marked as enqueued, without repeats, and nothing of a round but the
      active one. */
  lemma QueueConsistent(p: Plan, run: seq<Sys>, i: nat)
    requires PlanOk(p) && Run(p, run) && i < |run|
    ensures var s := run[i].s;
            && NoRepeats(s.order) && Marked(s.order, s.enqueued)
            && (forall t | t in s.order :: s.active == Some(t.round))
  {
    RunInv(p, run, i);
    assert forall t | t in run[i].s.order :: QueuedOk(p, run[i].s, t);
  }

  /** Nothing lost, nothing twice: once the round is finalized and as long as it has not failed, every group is in
      exactly one place: queued, in flight or returned. The one exception is a group of a batch for which the sender has
      caught an error and not yet failed the round. */
  lemma NothingLost(p: Plan, run: seq<Sys>, i: nat, g: nat)
    requires PlanOk(p) && Run(p, run) && i < |run| && g < |p.groups|
    requires InStep(run[i].trainer) && run[i].trainer.round !in run[i].s.failed
    requires !(run[i].sender.Failing? && Ticket(run[i].trainer.round, g) in run[i].sender.batch)
    ensures var s, t := run[i].s, Ticket(run[i].trainer.round, g);
            && (t in s.order || t in s.inflight || t in s.returned)
            && !(t in s.order && t in s.inflight)
            && !(t in s.order && t in s.returned)
            && !(t in s.inflight && t in s.returned)
  {
    RunInv(p, run, i);
  }

  /** Over a whole run each group of each round joins a batch at most once, and in the order in which the groups were
      put into the queue. */
  lemma SentOnce(p: Plan, run: seq<Sys>, i: nat)
    requires PlanOk(p) && Run(p, run) && i < |run|
    ensures NoRepeats(run[i].log.taken)
    ensures Within(run[i].log.taken, run[i].log.enqueuings)
    ensures forall t | t in BatchOf(run[i].sender) :: t in run[i].log.taken
  {
    RunInv(p, run, i);
    PrefixWithin(run[i].log.taken, run[i].s.order);
    WithinTransitive(run[i].log.taken, run[i].log.taken + run[i].s.order, run[i].log.enqueuings);
  }

  /** A batch has one round, no group twice, at most the allowed number of groups and, unless it holds one group, at
      most the allowed number of bytes. */
  lemma BatchWithinLimits(p: Plan, run: seq<Sys>, i: nat)
    requires PlanOk(p) && Run(p, run) && i < |run|
    ensures var batch := BatchOf(run[i].sender);
            && NoRepeats(batch)
            && (forall t | t in batch :: t.round == run[i].sender.round)
            && |batch| <= p.maxGroups
            && (forall t | t in batch :: t.group < |p.groups|)
            && (|batch| >= 2 ==> Sum(BatchSlots(p, batch), Size(p, run[i].log.payloads)) <= p.maxBytes)
  {
    RunInv(p, run, i);
    BatchSum(p, run[i].log.payloads, BatchOf(run[i].sender));
  }

  /** What is sent for a layer is the chunk that its hook queued, or the empty chunk of a hook that did not fire;
      never an answer of the Master that has taken its place. */
  lemma SendsLocalChunks(p: Plan, run: seq<Sys>, i: nat, slot: Slot)
    requires PlanOk(p) && Run(p, run) && i < |run| && slot in run[i].log.payloads
    ensures slot in run[i].log.locals && run[i].log.payloads[slot] == run[i].log.locals[slot]
  {
    RunInv(p, run, i);
    assert PayloadOk(p, run[i], slot);
  }

  /** The wrapped optimizer steps only when the Master's answer for every group of the active round has been stored. */
  lemma StepsAfterAllReturned(p: Plan, run: seq<Sys>, i: nat, g: nat)
    requires PlanOk(p) && Run(p, run) && i < |run| - 1 && g < |p.groups|
    requires StepsOptimizer(run[i], run[i+1])
    ensures run[i].s.active.Some? && Ticket(run[i].s.active.value, g) in run[i].log.stored
  {
    RunInv(p, run, i);
  }

  /** It steps at most once per round and in increasing rounds. */
  lemma StepsOncePerRound(p: Plan, run: seq<Sys>, i: nat)
    requires PlanOk(p) && Run(p, run) && i < |run|
    ensures var steps := run[i].log.steps; forall j, k | 0 <= j < k < |steps| :: steps[j].round < steps[k].round
  {
    RunInv(p, run, i);
  }

  /** What the Master answered for a slot is fixed once and for all. */
  lemma {:induction false} AnswersFixed(p: Plan, run: seq<Sys>, i: nat, j: nat, slot: Slot)
    requires PlanOk(p) && Run(p, run) && i <= j < |run| && slot in run[i].log.answers
    ensures slot in run[j].log.answers && run[j].log.answers[slot] == run[i].log.answers[slot]
    decreases j
  {
    if i < j {
      AnswersFixed(p, run, i, j - 1, slot);
      NextAnswers(p, run, j - 1);
    }
  }

  lemma NextAnswers(p: Plan, run: seq<Sys>, i: nat)
    requires PlanOk(p) && Run(p, run) && i < |run| - 1
    ensures var before, after := run[i].log.answers, run[i+1].log.answers;
            forall slot | slot in before :: slot in after && after[slot] == before[slot]
  {
    RunInv(p, run, i);
    assert Linked(p, run, i);
    var step :| NextStep(p, run[i], run[i+1], step);
    AnswersKept(p, run[i], run[i+1], step);
  }
}
