/** The prepared runtime's state as it is updated in place. Every method is one critical section (or a part of one) and
    is proved to do what its function in PreparedSpec says. */
module PreparedService {
  import opened Wrappers
  import opened Gradients
  import opened PreparedSpec
  import opened PreparedRuns
  import opened PreparedSafety

  class PreparedRuntimeState {
    const plan: Plan
    var nextRound: nat
    var activeRound: Option<nat>
    var queuedChunks: map<Slot, Chunk>
    var outgoingOrder: seq<Ticket>
    var outgoingEnqueued: set<Ticket>
    var submittedGroups: set<Ticket>
    var inflightGroups: set<Ticket>
    var returnedGroups: set<Ticket>
    var roundErrors: set<nat>
    var roundApplied: set<nat>
    var completedRounds: seq<nat>
    var shutdownSender: bool

    ghost function Value(): State
      reads this
    {
      State(nextRound, activeRound, queuedChunks, outgoingOrder, outgoingEnqueued, submittedGroups, inflightGroups,
            returnedGroups, roundErrors, roundApplied, completedRounds, shutdownSender)
    }

    constructor (plan: Plan)
      ensures this.plan == plan && Value() == INITIAL
    {
      this.plan := plan;
      nextRound, activeRound, queuedChunks := 1, None, map[];
      outgoingOrder, outgoingEnqueued := [], {};
      submittedGroups, inflightGroups, returnedGroups := {}, {}, {};
      roundErrors, roundApplied, completedRounds, shutdownSender := {}, {}, [], false;
    }

    /** The round that a hook or a capture belongs to; opened if none is active. */
    method OpenRound() returns (round: nat)
      modifies this
      ensures Value() == Opened(old(Value())) && activeRound == Some(round)
    {
      if activeRound.None? {
        activeRound := Some(nextRound);
      }
      round := activeRound.value;
    }

    method GroupIsReady(t: Ticket) returns (ready: bool)
      requires t.group < |plan.groups|
      ensures ready <==> Ready(plan, queuedChunks, t)
    {
      var members := plan.groups[t.group];
      for m := 0 to |members|
        invariant forall k | 0 <= k < m :: Slot(t.round, members[k]) in queuedChunks
      {
        if Slot(t.round, members[m]) !in queuedChunks {
          return false;
        }
      }
      return true;
    }

    method EnqueueGroupIfReady(t: Ticket)
      requires t.group < |plan.groups|
      modifies this
      ensures Value() == EnqueuedIfReady(plan, old(Value()), t)
    {
      var ready := GroupIsReady(t);
      if !ready || t in outgoingEnqueued || t in submittedGroups || t in inflightGroups || t in returnedGroups {
        return;
      }
      outgoingOrder := outgoingOrder + [t];
      outgoingEnqueued := outgoingEnqueued + {t};
    }

    /** A hook's compressed gradient is queued under the round that the hook began in. */
    method QueueChunk(slot: Slot, c: Chunk)
      requires PlanOk(plan) && slot.layer < |plan.layers|
      modifies this
      ensures Value() == ChunkQueued(plan, old(Value()), slot, c)
    {
      queuedChunks := queuedChunks[slot := c];
      EnqueueGroupIfReady(Ticket(slot.round, plan.groupOf[slot.layer]));
    }

    method FillMissing(round: nat)
      modifies this`queuedChunks
      ensures queuedChunks == Filled(plan, old(queuedChunks), round, |plan.layers|)
    {
      for l := 0 to |plan.layers|
        invariant queuedChunks == Filled(plan, old(queuedChunks), round, l)
      {
        if Slot(round, l) !in queuedChunks {
          queuedChunks := queuedChunks[Slot(round, l) := EmptyFor(plan, Slot(round, l))];
        }
      }
    }

    /** Layers whose hook did not fire get a chunk without gradient, the others keep theirs, and every group that is
        ready is queued. */
    method FinalizeRoundChunks() returns (round: nat, chunks: seq<Chunk>)
      requires activeRound.Some?
      modifies this
      ensures Some(round) == old(activeRound) && Value() == Finalized(plan, old(Value()), round)
      ensures |chunks| == |plan.layers|
      ensures forall l: nat | l < |plan.layers| :: Slot(round, l) in queuedChunks && chunks[l] == queuedChunks[Slot(round, l)]
      ensures forall l: nat | l < |plan.layers| ::
                if Slot(round, l) in old(queuedChunks) then chunks[l] == old(queuedChunks)[Slot(round, l)]
                else WithoutGradient(plan, Slot(round, l), chunks[l])
    {
      round := activeRound.value;
      ghost var before := Value();
      FillMissing(round);
      FilledIs(plan, before.queued, round, |plan.layers|);
      ghost var filled := Value();
      assert filled == before.(queued := Filled(plan, before.queued, round, |plan.layers|));
      for g := 0 to |plan.groups|
        invariant Value() == AllEnqueued(plan, filled, round, g)
      {
        EnqueueGroupIfReady(Ticket(round, g));
      }
      AllEnqueuedFrame(plan, filled, round, |plan.groups|);
      chunks := Ordered(plan, queuedChunks, round);
      forall l: nat | l < |plan.layers| && Slot(round, l) !in before.queued
        ensures WithoutGradient(plan, Slot(round, l), chunks[l])
      {
        EmptyIsWithout(plan, Slot(round, l));
      }
    }

    // ---------- the sender ----------

    /** The head leaves the queue; it is in flight from now on unless its round has failed. */
    method TakeHead() returns (t: Ticket, taken: bool)
      requires outgoingOrder != [] && outgoingOrder[0].group < |plan.groups|
      modifies this
      ensures t == old(outgoingOrder)[0] && taken == Taken(plan, old(Value())) && Value() == Popped(plan, old(Value()))
    {
      t := outgoingOrder[0];
      outgoingOrder := outgoingOrder[1..];
      outgoingEnqueued := outgoingEnqueued - {t};
      taken := false;
      if t.round in roundErrors {
        return;
      }
      var ready := GroupIsReady(t);
      if ready {
        taken := true;
        submittedGroups := submittedGroups + {t};
        inflightGroups := inflightGroups + {t};
      }
    }

    method SizeOf(t: Ticket) returns (bytes: nat)
      requires t.group < |plan.groups| && Ready(plan, queuedChunks, t)
      ensures bytes == GroupBytes(plan, queuedChunks, t)
    {
      bytes := 0;
      for m := 0 to |plan.groups[t.group]|
        invariant bytes == PayloadBytes(plan, queuedChunks, t, m)
      {
        bytes := bytes + plan.byteSize(queuedChunks[Slot(t.round, plan.groups[t.group][m])]);
      }
    }

    /** One batch, collected without giving up the lock. */
    method CollectBatch() returns (batch: seq<Ticket>, bytes: nat)
      requires PlanOk(plan) && QueueInv(plan, Value())
      requires outgoingOrder != [] && outgoingOrder[0].round !in roundErrors
      modifies this
      ensures batch != [] && CollectedFrom(plan, old(Value()), Value(), batch, bytes)
      ensures NothingMoreFits(plan, old(Value()), batch, bytes)
    {
      ghost var before := Value();
      batch, bytes := [], 0;
      while |batch| < plan.maxGroups && outgoingOrder != []
        invariant CollectedFrom(plan, before, Value(), batch, bytes)
        invariant batch == [] ==> Value() == before
        decreases |outgoingOrder|
      {
        HeadReady(plan, before, Value(), batch, bytes);
        if batch != [] && outgoingOrder[0].round != batch[0].round {
          break;
        }
        var size := SizeOf(outgoingOrder[0]);
        if batch != [] && bytes + size > plan.maxBytes {
          break;
        }
        batch, bytes := TakeOne(before, batch, bytes, size);
      }
    }

    /** The head of the queue joins the batch. */
    method TakeOne(ghost before: State, batch: seq<Ticket>, bytes: nat, size: nat)
      returns (more: seq<Ticket>, moreBytes: nat)
      requires CollectedFrom(plan, before, Value(), batch, bytes) && |batch| < plan.maxGroups && outgoingOrder != []
      requires outgoingOrder[0].group < |plan.groups| && Ready(plan, queuedChunks, outgoingOrder[0])
      requires size == GroupBytes(plan, queuedChunks, outgoingOrder[0])
      requires batch == [] ==> before == Value() && outgoingOrder[0].round !in before.failed
      requires batch != [] ==> outgoingOrder[0].round == batch[0].round && bytes + size <= plan.maxBytes
      modifies this
      ensures CollectedFrom(plan, before, Value(), more, moreBytes) && more != []
      ensures outgoingOrder == old(outgoingOrder)[1..]
    {
      CollectedNext(plan, before, Value(), batch, bytes);
      var t, taken := TakeHead();
      more, moreBytes := batch + [t], bytes + size;
    }

    /** A group of the Master's answer; false stands for the error that is raised. */
    method StoreGroupResponse(t: Ticket, chunks: seq<Chunk>) returns (ok: bool)
      requires PlanOk(plan) && t.group < |plan.groups|
      modifies this
      ensures Value() == Stored(plan, old(Value()), t, chunks) && ok == Stores(plan, old(Value()), t, chunks)
    {
      var members := plan.groups[t.group];
      if |chunks| != |members| || t.round < nextRound {
        return false;
      }
      inflightGroups := inflightGroups - {t};
      for m := 0 to |members|
        invariant queuedChunks == Overwritten(plan, old(queuedChunks), t, chunks, m)
        invariant forall k | 0 <= k < m :: MemberFits(plan, t, k, chunks[k])
        invariant Value() == old(Value()).(inflight := old(inflightGroups) - {t}, queued := queuedChunks)
      {
        if !MemberFits(plan, t, m, chunks[m]) {
          FittingIs(plan, t, chunks, 0, m);
          return false;
        }
        queuedChunks := queuedChunks[Slot(t.round, members[m]) := chunks[m]];
      }
      FittingIs(plan, t, chunks, 0, |chunks|);
      returnedGroups := returnedGroups + {t};
      return true;
    }

    // ---------- failing and finishing ----------

    method PurgeRoundQueue(round: nat)
      requires Marked(outgoingOrder, outgoingEnqueued)
      modifies this`outgoingOrder, this`outgoingEnqueued
      ensures outgoingOrder == Purged(old(outgoingOrder), round)
      ensures outgoingEnqueued == old(outgoingEnqueued) - Of(old(outgoingEnqueued), round)
    {
      var keep := [];
      ghost var n := 0;
      while outgoingOrder != []
        invariant 0 <= n <= |old(outgoingOrder)| && outgoingOrder == old(outgoingOrder)[n..]
        invariant keep == Purged(old(outgoingOrder)[..n], round)
        invariant forall t: Ticket :: t in outgoingEnqueued <==>
                    t in old(outgoingEnqueued) && !(t.round == round && t in old(outgoingOrder)[..n])
        decreases |outgoingOrder|
      {
        var t := outgoingOrder[0];
        assert old(outgoingOrder)[..n+1] == old(outgoingOrder)[..n] + [t];
        outgoingOrder := outgoingOrder[1..];
        if t.round != round {
          keep := keep + [t];
        } else {
          outgoingEnqueued := outgoingEnqueued - {t};
        }
        n := n + 1;
      }
      assert old(outgoingOrder)[..n] == old(outgoingOrder);
      outgoingOrder := keep;
    }

    method FailRound(round: nat)
      requires Marked(outgoingOrder, outgoingEnqueued)
      modifies this
      ensures Value() == RoundFailed(old(Value()), round)
    {
      roundErrors := roundErrors + {round};
      submittedGroups := submittedGroups - Of(submittedGroups, round);
      inflightGroups := inflightGroups - Of(inflightGroups, round);
      PurgeRoundQueue(round);
    }

    /** The sender's handler: the groups of the batch are no longer in flight, and their round has failed. */
    method FailSentBatch(batch: seq<Ticket>, round: nat)
      requires Marked(outgoingOrder, outgoingEnqueued)
      modifies this
      ensures Value() == BatchFailed(old(Value()), batch, round)
    {
      ghost var before := Value();
      for i := 0 to |batch|
        invariant Value() == before.(inflight := before.inflight - (set t | t in batch[..i]))
      {
        assert batch[..i+1] == batch[..i] + [batch[i]];
        inflightGroups := inflightGroups - {batch[i]};
      }
      assert batch[..|batch|] == batch;
      FailRound(round);
    }

    method MarkApplied(round: nat)
      modifies this
      ensures Value() == MarkedApplied(plan, old(Value()), round)
    {
      returnedGroups := returnedGroups - Of(returnedGroups, round) + Tickets(plan, round);
      roundApplied := roundApplied + {round};
    }

    method EndStep()
      requires Marked(outgoingOrder, outgoingEnqueued)
      modifies this
      ensures Value() == Finished(old(Value()))
    {
      if activeRound.None? {
        return;
      }
      var round := activeRound.value;
      completedRounds := completedRounds + [round];
      nextRound := round + 1;
      DropRound(round);
      PurgeRoundQueue(round);
      activeRound := None;
    }

    /** Everything that is kept for the round, but for the queue. */
    method DropRound(round: nat)
      modifies this`queuedChunks, this`submittedGroups, this`inflightGroups, this`returnedGroups, this`roundErrors,
               this`roundApplied
      ensures queuedChunks == Without(old(queuedChunks), round)
      ensures submittedGroups == old(submittedGroups) - Of(old(submittedGroups), round)
      ensures inflightGroups == old(inflightGroups) - Of(old(inflightGroups), round)
      ensures returnedGroups == old(returnedGroups) - Of(old(returnedGroups), round)
      ensures roundErrors == old(roundErrors) - {round} && roundApplied == old(roundApplied) - {round}
    {
      queuedChunks := Without(queuedChunks, round);
      submittedGroups := submittedGroups - Of(submittedGroups, round);
      inflightGroups := inflightGroups - Of(inflightGroups, round);
      returnedGroups := returnedGroups - Of(returnedGroups, round);
      roundErrors := roundErrors - {round};
      roundApplied := roundApplied - {round};
    }

    method ShutDownRuntime()
      requires Marked(outgoingOrder, outgoingEnqueued)
      modifies this
      ensures Value() == ShutDown(old(Value()))
    {
      shutdownSender := true;
      if activeRound.Some? {
        FailRound(activeRound.value);
      }
    }
  }

  lemma {:induction false} FittingIs(p: Plan, t: Ticket, chunks: seq<Chunk>, n: nat, k: nat)
    requires t.group < |p.groups| && n <= k <= |chunks| == |p.groups[t.group]|
    requires forall m | n <= m < k :: MemberFits(p, t, m, chunks[m])
    requires k < |chunks| ==> !MemberFits(p, t, k, chunks[k])
    ensures Fitting(p, t, chunks, n) == k
    decreases k - n
  {
    if n < k {
      FittingIs(p, t, chunks, n + 1, k);
    }
  }

  // ---------- what a batch is ----------

  /** The batch is what is missing at the head of the queue; it is submitted and in flight, and nothing else changed. */
  ghost predicate CollectedFrom(p: Plan, before: State, now: State, batch: seq<Ticket>, bytes: nat) {
    && QueueInv(p, now)
    && batch + now.order == before.order
    && now == before.(order := now.order, enqueued := now.enqueued,
                      submitted := before.submitted + (set t | t in batch),
                      inflight := before.inflight + (set t | t in batch))
    && (forall t | t in batch :: t.round == batch[0].round && t.round !in before.failed)
    && |batch| <= p.maxGroups
    && bytes == BatchBytes(p, before.queued, batch)
    && (|batch| >= 2 ==> bytes <= p.maxBytes)
  }

  /** The batch is full, the queue is empty, or its head belongs to another round or is too big. */
  ghost predicate NothingMoreFits(p: Plan, before: State, batch: seq<Ticket>, bytes: nat) {
    || |batch| == p.maxGroups
    || |batch| >= |before.order|
    || (batch != [] && before.order[|batch|].round != batch[0].round)
    || bytes + BatchBytes(p, before.queued, [before.order[|batch|]]) > p.maxBytes
  }

  lemma HeadReady(p: Plan, before: State, now: State, batch: seq<Ticket>, bytes: nat)
    requires CollectedFrom(p, before, now, batch, bytes) && now.order != []
    ensures |batch| < |before.order| && before.order[|batch|] == now.order[0]
    ensures now.order[0].group < |p.groups| && Ready(p, now.queued, now.order[0])
    ensures BatchBytes(p, before.queued, [now.order[0]]) == GroupBytes(p, now.queued, now.order[0])
  {
    assert QueuedOk(p, now, now.order[0]);
    BatchOfOne(p, before.queued, now.order[0]);
  }

  lemma CollectedNext(p: Plan, before: State, now: State, batch: seq<Ticket>, bytes: nat)
    requires CollectedFrom(p, before, now, batch, bytes) && |batch| < p.maxGroups && now.order != []
    requires now.order[0].group < |p.groups| && Ready(p, now.queued, now.order[0])
    requires batch == [] ==> before == now && now.order[0].round !in before.failed
    requires batch != [] ==> now.order[0].round == batch[0].round
    requires batch != [] ==> bytes + GroupBytes(p, now.queued, now.order[0]) <= p.maxBytes
    ensures CollectedFrom(p, before, Popped(p, now), batch + [now.order[0]], bytes + GroupBytes(p, now.queued, now.order[0]))
  {
    var t := now.order[0];
    PoppedKeepsQueue(p, now);
    BatchMore(p, now.queued, batch, t);
    LongerBatch(batch, now.order);
    var longer := batch + [t];
    assert batch != [] ==> batch[0] in batch;
    assert Taken(p, now);
    assert forall u | u in longer :: u in batch || u == t;
  }

  lemma LongerBatch(batch: seq<Ticket>, order: seq<Ticket>)
    requires order != []
    ensures var longer := batch + [order[0]];
            && longer + order[1..] == batch + order
            && (batch != [] ==> longer[0] == batch[0])
            && (set u | u in longer) == (set u | u in batch) + {order[0]}
  {
  }
}
