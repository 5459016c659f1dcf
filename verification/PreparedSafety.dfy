/** What every step of the prepared runtime keeps. */
module PreparedSafety {
  import opened Wrappers
  import opened Gradients
  import opened PreparedSpec
  import opened PreparedRuns

  lemma KeepsRounds(p: Plan, a: Sys, b: Sys, step: Step)
    requires PlanOk(p) && NextStep(p, a, b, step)
    requires RoundsInv(a) && TrainerInv(a)
    requires a.sender.Failing? ==> Known(a, a.sender.round)
    ensures RoundsInv(b)
  {
    match step
    case Finalize => FinalizedFrame(p, a.s, a.s.active.value);
    case _ =>
  }

  /** Finalizing only fills slots and appends to the queue. */
  lemma FinalizedFrame(p: Plan, s: State, round: nat)
    ensures var f := Finalized(p, s, round);
            && s.order <= f.order
            && f == s.(queued := Filled(p, s.queued, round, |p.layers|), order := f.order, enqueued := f.enqueued)
  {
    AllEnqueuedFrame(p, s.(queued := Filled(p, s.queued, round, |p.layers|)), round, |p.groups|);
  }

  lemma KeepsTrainer(p: Plan, a: Sys, b: Sys, step: Step)
    requires PlanOk(p) && NextStep(p, a, b, step)
    requires TrainerInv(a) && HooksInv(p, a)
    ensures TrainerInv(b)
  {
    match step
    case Finalize => FinalizedFrame(p, a.s, a.s.active.value);
    case EndHook(slot, c) => assert PendingOk(p, a, slot);
    case _ =>
  }

  lemma KeepsSlots(p: Plan, a: Sys, b: Sys, step: Step)
    requires PlanOk(p) && NextStep(p, a, b, step)
    requires SlotsInv(p, a) && RoundsInv(a) && TrainerInv(a) && SenderInv(p, a) && TakenInv(p, a) && HooksInv(p, a)
    ensures SlotsInv(p, b)
  {
    match step
    case Finalize =>
      FinalizedFrame(p, a.s, a.s.active.value);
      FilledIs(p, a.s.queued, a.s.active.value, |p.layers|);
    case EndHook(slot, c) =>
      assert PendingOk(p, a, slot);
    case StoreGroup(chunks) =>
      StoredSlots(p, a, chunks);
    case _ =>
  }

  /** A response only overwrites slots that are there. */
  lemma StoredSlots(p: Plan, a: Sys, chunks: seq<Chunk>)
    requires PlanOk(p) && SenderInv(p, a) && TakenInv(p, a)
    requires a.sender.Storing? && a.sender.n < |a.sender.batch|
    ensures var t := a.sender.batch[a.sender.n];
            && t in a.log.taken && t.group < |p.groups| && t.round == a.sender.round
            && Stored(p, a.s, t, chunks).queued.Keys == a.s.queued.Keys
            && (Stored(p, a.s, t, chunks) != a.s ==> a.s.active == Some(t.round))
  {
    var t := a.sender.batch[a.sender.n];
    assert t in BatchOf(a.sender);
    assert TakenOk(p, a, t);
    if !Refused(p, a.s, t, chunks) {
      OverwrittenIs(p, a.s.queued, t, chunks, Fitting(p, t, chunks, 0));
    }
  }

  lemma KeepsHooks(p: Plan, a: Sys, b: Sys, step: Step)
    requires PlanOk(p) && NextStep(p, a, b, step)
    requires HooksInv(p, a) && TrainerInv(a) && SlotsInv(p, a) && SenderInv(p, a) && TakenInv(p, a)
    ensures HooksInv(p, b)
  {
    match step
    case BeginHook(l) => BeginKeepsHooks(p, a, b, l);
    case EndHook(slot, c) => EndKeepsHooks(p, a, b, slot, c);
    case BeginCapture =>
    case Finalize => FinalizedFrame(p, a.s, a.s.active.value);
    case FinishStep =>
    case StoreGroup(chunks) =>
      StoredSlots(p, a, chunks);
      HooksSame(p, a, b);
    case _ => HooksSame(p, a, b);
  }

  lemma HooksSame(p: Plan, a: Sys, b: Sys)
    requires HooksInv(p, a) && b.pending == a.pending && b.fired == a.fired && b.s.active == a.s.active
    requires b.trainer == Backward ==> a.trainer == Backward && b.s.queued.Keys == a.s.queued.Keys
    ensures HooksInv(p, b)
  {
    PendingsStay(p, a, b);
    forall slot | b.trainer == Backward && slot in b.s.queued ensures slot.layer in b.fired {
      assert slot in a.s.queued.Keys;
    }
  }

  lemma PendingsStay(p: Plan, a: Sys, b: Sys)
    requires forall slot | slot in a.pending :: PendingOk(p, a, slot)
    requires forall slot | slot in b.pending :: slot in a.pending
    requires a.s.active.Some? ==> b.s.active == a.s.active
    requires a.fired <= b.fired
    ensures forall slot | slot in b.pending :: PendingOk(p, b, slot)
  {
    forall slot | slot in b.pending ensures PendingOk(p, b, slot) {
      assert PendingOk(p, a, slot);
    }
  }

  lemma EndKeepsHooks(p: Plan, a: Sys, b: Sys, slot: Slot, c: Chunk)
    requires PlanOk(p) && HookEnds(p, a, b, slot, c) && HooksInv(p, a)
    ensures HooksInv(p, b)
  {
    assert PendingOk(p, a, slot);
    PendingsStay(p, a, b);
  }

  lemma BeginKeepsHooks(p: Plan, a: Sys, b: Sys, l: nat)
    requires HookBegins(p, a, b, l) && HooksInv(p, a) && SlotsInv(p, a)
    ensures HooksInv(p, b)
  {
    forall other | other in b.pending ensures PendingOk(p, b, other) {
      if other in a.pending {
        assert PendingOk(p, a, other);
      }
    }
  }

  // ---------- the queue ----------

  lemma KeepsQueue(p: Plan, a: Sys, b: Sys, step: Step)
    requires PlanOk(p) && NextStep(p, a, b, step)
    requires QueueInv(p, a.s) && HooksInv(p, a) && TrainerInv(a) && SenderInv(p, a) && TakenInv(p, a) && RoundsInv(a)
    ensures QueueInv(p, b.s)
  {
    match step
    case EndHook(slot, c) =>
      assert PendingOk(p, a, slot);
      EnqueueKeepsQueue(p, a.s.(queued := a.s.queued[slot := c]), TicketOf(p, slot));
    case Finalize => FinalizeKeepsQueue(p, a, b);
    case PopFirst => PoppedKeepsQueue(p, a.s);
    case PopMore => PoppedKeepsQueue(p, a.s);
    case StoreGroup(chunks) =>
      StoredSlots(p, a, chunks);
      QueueSame(p, a.s, b.s);
    case TimeOut => FailedKeepsQueue(p, a.s, a.trainer.round);
    case FailRaised => FailedKeepsQueue(p, a.s, a.trainer.round);
    case FailBatch => FailedKeepsQueue(p, a.s.(inflight := a.s.inflight - (set t | t in a.sender.batch)), a.sender.round);
    case Shutdown =>
      if a.s.active.Some? {
        FailedKeepsQueue(p, a.s.(shutdown := true), a.s.active.value);
      }
    case FinishStep => FinishKeepsQueue(p, a, b);
    case _ => QueueSame(p, a.s, b.s);
  }

  lemma QueueSame(p: Plan, s: State, after: State)
    requires QueueInv(p, s) && after.order == s.order && after.enqueued == s.enqueued
    requires after.queued.Keys == s.queued.Keys && (after.active == s.active || s.active.None?)
    ensures QueueInv(p, after)
  {
    forall t | t in after.order ensures QueuedOk(p, after, t) {
      assert QueuedOk(p, s, t);
      assert forall l | l in p.groups[t.group] :: Slot(t.round, l) in s.queued.Keys;
    }
  }

  lemma FinalizeKeepsQueue(p: Plan, a: Sys, b: Sys)
    requires PlanOk(p) && Finalizes(p, a, b) && QueueInv(p, a.s)
    ensures QueueInv(p, b.s)
  {
    var r := a.s.active.value;
    FilledIs(p, a.s.queued, r, |p.layers|);
    AllEnqueuedKeepsQueue(p, a.s.(queued := Filled(p, a.s.queued, r, |p.layers|)), r, |p.groups|);
    FinalizedFrame(p, a.s, r);
  }

  lemma FinishKeepsQueue(p: Plan, a: Sys, b: Sys)
    requires Finishes(a, b) && a.s.active.Some? && QueueInv(p, a.s)
    ensures QueueInv(p, b.s)
  {
    PurgedDistinct(a.s.order, a.s.active.value);
    PurgedMarked(a.s.order, a.s.enqueued, a.s.active.value);
  }

  lemma EnqueueKeepsQueue(p: Plan, s: State, t: Ticket)
    requires QueueInv(p, s) && t.group < |p.groups| && s.active == Some(t.round)
    ensures QueueInv(p, EnqueuedIfReady(p, s, t))
  {
  }

  lemma {:induction false} AllEnqueuedKeepsQueue(p: Plan, s: State, round: nat, n: nat)
    requires QueueInv(p, s) && n <= |p.groups| && s.active == Some(round)
    ensures QueueInv(p, AllEnqueued(p, s, round, n)) && AllEnqueued(p, s, round, n).active == s.active
  {
    if n > 0 {
      AllEnqueuedKeepsQueue(p, s, round, n - 1);
      EnqueueKeepsQueue(p, AllEnqueued(p, s, round, n - 1), Ticket(round, n - 1));
    }
  }

  lemma PoppedKeepsQueue(p: Plan, s: State)
    requires QueueInv(p, s) && s.order != [] && s.order[0].group < |p.groups|
    ensures QueueInv(p, Popped(p, s))
  {
    var rest := s.order[1..];
    forall t ensures t in rest <==> t in s.order && t != s.order[0] {
      assert s.order == [s.order[0]] + rest;
      if t in rest {
        var i :| 0 <= i < |rest| && rest[i] == t;
        assert s.order[i+1] == t;
      }
    }
  }

  lemma {:induction false} PurgedDistinct(order: seq<Ticket>, round: nat)
    requires NoRepeats(order)
    ensures NoRepeats(Purged(order, round))
  {
    if order != [] {
      var last := |order| - 1;
      PurgedDistinct(order[..last], round);
      forall i | 0 <= i < |Purged(order[..last], round)| ensures Purged(order[..last], round)[i] != order[last] {
        assert Purged(order[..last], round)[i] in order[..last];
      }
    }
  }

  lemma PurgedMarked(order: seq<Ticket>, enqueued: set<Ticket>, round: nat)
    requires Marked(order, enqueued)
    ensures Marked(Purged(order, round), enqueued - Of(enqueued, round))
  {
  }

  lemma FailedKeepsQueue(p: Plan, s: State, round: nat)
    requires QueueInv(p, s)
    ensures QueueInv(p, RoundFailed(s, round))
  {
    PurgedDistinct(s.order, round);
    var f := RoundFailed(s, round);
    PurgedMarked(s.order, s.enqueued, round);
    forall t | t in f.order ensures QueuedOk(p, f, t) {
      assert QueuedOk(p, s, t);
    }
  }

  // ---------- the sender and what it has taken ----------

  lemma KeepsSender(p: Plan, a: Sys, b: Sys, step: Step)
    requires PlanOk(p) && NextStep(p, a, b, step)
    requires SenderInv(p, a) && RoundsInv(a) && QueueInv(p, a.s) && FreshInv(a) && TakenInv(p, a)
    ensures SenderInv(p, b)
  {
    match step
    case Finalize =>
      FinalizedFrame(p, a.s, a.s.active.value);
      SenderSame(p, a, b);
    case PopFirst => PopKeepsSender(p, a, b);
    case PopMore => PopKeepsSender(p, a, b);
    case CloseBatch => SenderMoves(p, a, b, step);
    case Respond => SenderMoves(p, a, b, step);
    case StoreGroup(chunks) => KeepsSenderStore(p, a, b, chunks);
    case StoreDone => SenderMoves(p, a, b, step);
    case SendFailed => SenderMoves(p, a, b, step);
    case FailBatch => SenderMoves(p, a, b, step);
    case StopSender => SenderMoves(p, a, b, step);
    case _ => SenderSame(p, a, b);
  }

  /** The steps between two batches take nothing and store nothing. */
  lemma SenderMoves(p: Plan, a: Sys, b: Sys, step: Step)
    requires PlanOk(p) && NextStep(p, a, b, step) && SenderInv(p, a)
    requires step in {CloseBatch, Respond, StoreDone, SendFailed, FailBatch, StopSender}
    ensures SenderInv(p, b)
  {
    if step == Respond {
      assert a.sender.batch[0..] == a.sender.batch;
    }
  }

  lemma SenderSame(p: Plan, a: Sys, b: Sys)
    requires SenderInv(p, a) && b.sender == a.sender
    requires b.log.taken == a.log.taken && b.log.stored == a.log.stored
    requires forall r | Known(a, r) :: Known(b, r)
    ensures SenderInv(p, b)
  {
  }

  lemma PopKeepsSender(p: Plan, a: Sys, b: Sys)
    requires PopsFirst(p, a, b) || PopsMore(p, a, b)
    requires SenderInv(p, a) && RoundsInv(a) && QueueInv(p, a.s) && FreshInv(a) && TakenInv(p, a)
    ensures SenderInv(p, b)
  {
    assert QueuedOk(p, a.s, a.s.order[0]);
  }

  lemma KeepsSenderStore(p: Plan, a: Sys, b: Sys, chunks: seq<Chunk>)
    requires PlanOk(p) && StoresGroup(p, a, b, chunks) && SenderInv(p, a)
    ensures SenderInv(p, b)
  {
    var batch, n := a.sender.batch, a.sender.n;
    if b.sender.Storing? {
      forall t | t in batch[n+1..] ensures t in batch[n..] && t != batch[n] {
        var i :| 0 <= i < |batch[n+1..]| && batch[n+1..][i] == t;
        assert batch[n..][i+1] == t;
      }
      forall t | Awaits(b.sender, t) ensures t !in b.log.stored {
        assert Awaits(a.sender, t);
      }
    }
  }

  lemma KeepsTaken(p: Plan, a: Sys, b: Sys, step: Step)
    requires PlanOk(p) && NextStep(p, a, b, step)
    requires TakenInv(p, a) && RoundsInv(a) && TrainerInv(a) && QueueInv(p, a.s) && FreshInv(a) && SenderInv(p, a)
    ensures TakenInv(p, b)
  {
    match step
    case Finalize =>
      FinalizedFrame(p, a.s, a.s.active.value);
      FilledIs(p, a.s.queued, a.s.active.value, |p.layers|);
      TakenStays(p, a, b);
    case PopFirst => KeepsTakenPop(p, a, b);
    case PopMore => KeepsTakenPop(p, a, b);
    case StoreGroup(chunks) =>
      StoredSlots(p, a, chunks);
      TakenStays(p, a, b);
    case _ =>
      TakenStays(p, a, b);
  }

  lemma TakenStays(p: Plan, a: Sys, b: Sys)
    requires TakenInv(p, a) && b.log.taken == a.log.taken
    requires forall t | t in b.log.stored && t !in a.log.stored :: t in a.log.taken
    requires forall r | Known(a, r) :: Known(b, r)
    requires forall r | b.s.active == Some(r) && a.s.active != Some(r) :: !Known(a, r)
    requires b.s.active.Some? && a.s.active == b.s.active ==>
               && a.s.queued.Keys <= b.s.queued.Keys
               && a.s.failed <= b.s.failed
               && (forall t | t in a.s.submitted && t !in b.s.submitted :: t.round in b.s.failed)
    ensures TakenInv(p, b)
  {
    forall t | t in b.log.taken ensures TakenOk(p, b, t) {
      assert TakenOk(p, a, t);
    }
  }

  lemma KeepsTakenPop(p: Plan, a: Sys, b: Sys)
    requires PopsFirst(p, a, b) || PopsMore(p, a, b)
    requires TakenInv(p, a) && QueueInv(p, a.s) && FreshInv(a)
    ensures TakenInv(p, b)
  {
    var t := a.s.order[0];
    assert QueuedOk(p, a.s, t);
    forall u | u in b.log.taken ensures TakenOk(p, b, u) {
      if u != t {
        assert TakenOk(p, a, u);
      }
    }
  }

  lemma KeepsFresh(p: Plan, a: Sys, b: Sys, step: Step)
    requires PlanOk(p) && NextStep(p, a, b, step)
    requires FreshInv(a) && TakenInv(p, a) && QueueInv(p, a.s) && HooksInv(p, a)
    ensures FreshInv(b)
  {
    match step
    case EndHook(slot, c) => EndKeepsFresh(p, a, b, slot, c);
    case Finalize => FinalizeKeepsFresh(p, a, b);
    case PopFirst => PopKeepsFresh(p, a, b);
    case PopMore => PopKeepsFresh(p, a, b);
    case FinishStep => FinishKeepsFresh(p, a, b);
    case _ => FreshSame(a, b);
  }

  lemma EndKeepsFresh(p: Plan, a: Sys, b: Sys, slot: Slot, c: Chunk)
    requires PlanOk(p) && HookEnds(p, a, b, slot, c) && FreshInv(a) && TakenInv(p, a) && HooksInv(p, a)
    ensures FreshInv(b)
  {
    assert PendingOk(p, a, slot);
    EnqueueKeepsFresh(p, a, a.s.(queued := a.s.queued[slot := c]), TicketOf(p, slot));
  }

  lemma FinalizeKeepsFresh(p: Plan, a: Sys, b: Sys)
    requires PlanOk(p) && Finalizes(p, a, b) && FreshInv(a) && TakenInv(p, a)
    ensures FreshInv(b)
  {
    var r := a.s.active.value;
    FinalizedFrame(p, a.s, r);
    AllEnqueuedKeepsFresh(p, a, a.s.(queued := Filled(p, a.s.queued, r, |p.layers|)), r, |p.groups|);
  }

  lemma PopKeepsFresh(p: Plan, a: Sys, b: Sys)
    requires PopsFirst(p, a, b) || PopsMore(p, a, b)
    requires FreshInv(a) && QueueInv(p, a.s)
    ensures FreshInv(b)
  {
    PoppedRest(a.s.order);
  }

  lemma FreshSame(a: Sys, b: Sys)
    requires FreshInv(a) && b.log.taken == a.log.taken && a.s.failed <= b.s.failed
    requires forall t | t in b.s.order :: t in a.s.order
    ensures FreshInv(b)
  {
  }

  lemma FinishKeepsFresh(p: Plan, a: Sys, b: Sys)
    requires Finishes(a, b) && FreshInv(a) && QueueInv(p, a.s)
    ensures FreshInv(b)
  {
    forall t | t in b.s.order ensures t in a.s.order && a.s.active == Some(t.round) {
      assert QueuedOk(p, a.s, t);
    }
  }

  ghost predicate FreshIn(s: State, taken: seq<Ticket>) {
    forall t | t in s.order && t.round !in s.failed :: t !in taken
  }

  lemma EnqueueKeepsFresh(p: Plan, a: Sys, s: State, t: Ticket)
    requires TakenInv(p, a) && FreshIn(s, a.log.taken) && t.group < |p.groups| && a.s.active == Some(t.round)
    requires s.submitted == a.s.submitted && s.failed == a.s.failed
    ensures FreshIn(EnqueuedIfReady(p, s, t), a.log.taken)
  {
    if t in a.log.taken {
      assert TakenOk(p, a, t);
    }
  }

  lemma {:induction false} AllEnqueuedKeepsFresh(p: Plan, a: Sys, s: State, round: nat, n: nat)
    requires TakenInv(p, a) && FreshIn(s, a.log.taken) && n <= |p.groups| && a.s.active == Some(round)
    requires s.submitted == a.s.submitted && s.failed == a.s.failed
    ensures FreshIn(AllEnqueued(p, s, round, n), a.log.taken)
  {
    if n > 0 {
      AllEnqueuedKeepsFresh(p, a, s, round, n - 1);
      AllEnqueuedFrame(p, s, round, n - 1);
      EnqueueKeepsFresh(p, a, AllEnqueued(p, s, round, n - 1), Ticket(round, n - 1));
    }
  }

  lemma PoppedRest(order: seq<Ticket>)
    requires order != [] && NoRepeats(order)
    ensures forall t | t in order[1..] :: t in order && t != order[0]
  {
    forall t | t in order[1..] ensures t in order && t != order[0] {
      var i :| 0 <= i < |order[1..]| && order[1..][i] == t;
      assert order[i+1] == t;
    }
  }

  // ---------- submitted, in flight, returned ----------

  lemma KeepsSets(p: Plan, a: Sys, b: Sys, step: Step)
    requires PlanOk(p) && NextStep(p, a, b, step)
    requires SetsInv(p, a) && RoundsInv(a) && QueueInv(p, a.s) && FreshInv(a) && TakenInv(p, a) && SenderInv(p, a)
    requires TrainerInv(a) && CompleteInv(p, a)
    ensures SetsInv(p, b)
  {
    match step
    case Finalize =>
      FinalizedFrame(p, a.s, a.s.active.value);
      SetsShrink(p, a, b);
    case PopFirst => PopKeepsSets(p, a, b);
    case PopMore => PopKeepsSets(p, a, b);
    case StoreGroup(chunks) => StoreKeepsSets(p, a, b, chunks);
    case ApplyDone =>
      AppliedReturned(p, a);
      SetsShrink(p, a, b);
    case FinishStep => FinishKeepsSets(p, a, b);
    case _ =>
      SetsShrink(p, a, b);
  }

  lemma StoreKeepsSets(p: Plan, a: Sys, b: Sys, chunks: seq<Chunk>)
    requires PlanOk(p) && StoresGroup(p, a, b, chunks) && SetsInv(p, a) && SenderInv(p, a) && TakenInv(p, a)
    ensures SetsInv(p, b)
  {
    StoredSlots(p, a, chunks);
  }

  lemma FinishKeepsSets(p: Plan, a: Sys, b: Sys)
    requires Finishes(a, b) && SetsInv(p, a)
    ensures SetsInv(p, b)
  {
  }

  lemma SetsShrink(p: Plan, a: Sys, b: Sys)
    requires SetsInv(p, a) && (b.s.active == a.s.active || a.s.active.None?)
    requires b.s.submitted <= a.s.submitted && b.s.inflight <= a.s.inflight && b.s.returned <= a.s.returned
    requires b.log.taken == a.log.taken && b.log.stored == a.log.stored
    ensures SetsInv(p, b)
  {
  }

  lemma PopKeepsSets(p: Plan, a: Sys, b: Sys)
    requires PopsFirst(p, a, b) || PopsMore(p, a, b)
    requires SetsInv(p, a) && QueueInv(p, a.s) && FreshInv(a) && TakenInv(p, a)
    ensures SetsInv(p, b)
  {
    assert QueuedOk(p, a.s, a.s.order[0]);
  }

  /** Marking the round as applied does not change which groups have returned. */
  lemma AppliedReturned(p: Plan, a: Sys)
    requires a.trainer.Applying? && CompleteInv(p, a) && SetsInv(p, a)
    ensures MarkedApplied(p, a.s, a.trainer.round).returned == a.s.returned
  {
    forall t | t in Tickets(p, a.trainer.round) ensures t in a.s.returned {
    }
  }

  lemma KeepsSplit(p: Plan, a: Sys, b: Sys, step: Step)
    requires PlanOk(p) && NextStep(p, a, b, step)
    requires SplitInv(a) && SetsInv(p, a) && SenderInv(p, a) && TakenInv(p, a) && CompleteInv(p, a)
    ensures SplitInv(b)
  {
    match step
    case Finalize => FinalizedFrame(p, a.s, a.s.active.value);
    case StoreGroup(chunks) =>
      StoredSlots(p, a, chunks);
    case ApplyDone => AppliedReturned(p, a);
    case FailBatch =>
      forall t | t in BatchOf(a.sender) ensures t.round == a.sender.round {
      }
    case _ =>
  }

  lemma KeepsCovered(p: Plan, a: Sys, b: Sys, step: Step)
    requires PlanOk(p) && NextStep(p, a, b, step)
    requires CoveredInv(p, a) && TrainerInv(a) && QueueInv(p, a.s) && SetsInv(p, a) && SplitInv(a) && TakenInv(p, a)
    ensures CoveredInv(p, b)
  {
    match step
    case Finalize => FinalizedCovers(p, a, b);
    case PopFirst => assert QueuedOk(p, a.s, a.s.order[0]);
    case PopMore => assert QueuedOk(p, a.s, a.s.order[0]);
    case _ =>
  }

  lemma {:induction false} AllEnqueuedCovers(p: Plan, s: State, round: nat, n: nat, g: nat)
    requires g < n <= |p.groups| && Marked(s.order, s.enqueued) && Ready(p, s.queued, Ticket(round, g))
    ensures var t := Ticket(round, g); var e := AllEnqueued(p, s, round, n);
            t in e.order || t in s.submitted || t in s.inflight || t in s.returned
  {
    AllEnqueuedFrame(p, s, round, n - 1);
    AllEnqueuedMarked(p, s, round, n - 1);
    if g < n - 1 {
      AllEnqueuedCovers(p, s, round, n - 1, g);
    }
  }

  lemma {:induction false} AllEnqueuedMarked(p: Plan, s: State, round: nat, n: nat)
    requires n <= |p.groups| && Marked(s.order, s.enqueued)
    ensures Marked(AllEnqueued(p, s, round, n).order, AllEnqueued(p, s, round, n).enqueued)
  {
    if n > 0 {
      AllEnqueuedMarked(p, s, round, n - 1);
    }
  }

  lemma MemberOf(p: Plan, g: nat, l: nat)
    requires PlanOk(p) && g < |p.groups| && l in p.groups[g]
    ensures l < |p.layers| && p.groupOf[l] == g
  {
    assert forall k | 0 <= k < |p.groups| && l in p.groups[k] :: p.groupOf[l] == k;
  }

  lemma FinalizedCovers(p: Plan, a: Sys, b: Sys)
    requires PlanOk(p) && Finalizes(p, a, b) && QueueInv(p, a.s) && SetsInv(p, a) && TakenInv(p, a)
    ensures CoveredInv(p, b)
  {
    var r := a.s.active.value;
    var s := a.s.(queued := Filled(p, a.s.queued, r, |p.layers|));
    FinalizedFrame(p, a.s, r);
    FilledIs(p, a.s.queued, r, |p.layers|);
    forall g: nat | g < |p.groups| && r !in b.s.failed
      ensures Ticket(r, g) in b.s.order || Ticket(r, g) in b.s.submitted
    {
      forall l | l in p.groups[g] ensures Slot(r, l) in s.queued {
        MemberOf(p, g, l);
      }
      AllEnqueuedCovers(p, s, r, |p.groups|, g);
      var t := Ticket(r, g);
      if t in a.log.taken {
        assert TakenOk(p, a, t);
      }
    }
  }

  // ---------- what the Master answered, and what was queued locally ----------

  lemma KeepsAnswers(p: Plan, a: Sys, b: Sys, step: Step)
    requires PlanOk(p) && NextStep(p, a, b, step)
    requires AnswersInv(p, a) && SetsInv(p, a) && SenderInv(p, a) && TakenInv(p, a) && HooksInv(p, a) && CompleteInv(p, a)
    ensures AnswersInv(p, b)
  {
    match step
    case EndHook(slot, c) => HookKeepsAnswers(p, a, b, slot, c);
    case Finalize =>
      FinalizedFrame(p, a.s, a.s.active.value);
      FilledIs(p, a.s.queued, a.s.active.value, |p.layers|);
      AnsweredStays(p, a, b);
    case StoreGroup(chunks) => KeepsAnswersStore(p, a, b, chunks);
    case ApplyDone =>
      AppliedReturned(p, a);
      AnsweredStays(p, a, b);
    case FinishStep => FinishKeepsAnswers(p, a, b);
    case _ => AnsweredSame(p, a, b);
  }

  /** A late hook replaces what is queued, and is the last to do so. */
  lemma HookKeepsAnswers(p: Plan, a: Sys, b: Sys, slot: Slot, c: Chunk)
    requires PlanOk(p) && HookEnds(p, a, b, slot, c) && AnswersInv(p, a)
    ensures AnswersInv(p, b)
  {
    forall t, l | t in b.s.returned && t.group < |p.groups| && l in p.groups[t.group]
      ensures Answered(b, Slot(t.round, l))
    {
      HookKeepsAnswered(p, a, b, slot, c, Slot(t.round, l));
    }
  }

  lemma HookKeepsAnswered(p: Plan, a: Sys, b: Sys, slot: Slot, c: Chunk, other: Slot)
    requires PlanOk(p) && HookEnds(p, a, b, slot, c) && Answered(a, other)
    ensures Answered(b, other)
  {
  }

  lemma AnsweredSame(p: Plan, a: Sys, b: Sys)
    requires AnswersInv(p, a) && b.s.returned == a.s.returned && b.s.queued == a.s.queued
    requires b.log.answers == a.log.answers && b.log.late == a.log.late && b.log.stored == a.log.stored
    ensures AnswersInv(p, b)
  {
    forall t, l | t in b.s.returned && t.group < |p.groups| && l in p.groups[t.group]
      ensures Answered(b, Slot(t.round, l))
    {
      assert Answered(a, Slot(t.round, l));
    }
  }

  lemma FinishKeepsAnswers(p: Plan, a: Sys, b: Sys)
    requires Finishes(a, b) && AnswersInv(p, a) && SetsInv(p, a)
    ensures AnswersInv(p, b)
  {
    forall t | t in b.s.returned ensures t in a.s.returned && b.s.active == a.s.active {
      assert Current(p, a, t);
    }
  }

  lemma AnsweredStays(p: Plan, a: Sys, b: Sys)
    requires AnswersInv(p, a) && b.s.returned == a.s.returned && b.log.answers == a.log.answers && b.log.late == a.log.late
    requires a.log.stored <= b.log.stored
    requires forall slot | slot in a.s.queued :: slot in b.s.queued && b.s.queued[slot] == a.s.queued[slot]
    ensures AnswersInv(p, b)
  {
    forall t, l | t in b.s.returned && t.group < |p.groups| && l in p.groups[t.group]
      ensures Answered(b, Slot(t.round, l))
    {
      assert Answered(a, Slot(t.round, l));
    }
  }

  /** Groups do not share layers, and no group is stored twice. */
  lemma KeepsAnswersStore(p: Plan, a: Sys, b: Sys, chunks: seq<Chunk>)
    requires PlanOk(p) && StoresGroup(p, a, b, chunks)
    requires AnswersInv(p, a) && SetsInv(p, a) && SenderInv(p, a) && TakenInv(p, a)
    ensures AnswersInv(p, b)
  {
    StoredSlots(p, a, chunks);
    var t := a.sender.batch[a.sender.n];
    assert Awaits(a.sender, t) by { assert t == a.sender.batch[a.sender.n..][0]; }
    if Stores(p, a.s, t, chunks) {
      NotAnswered(p, a, t);
      OverwrittenIs(p, a.log.answers, t, chunks, |chunks|);
      assert p.groups[t.group][..|chunks|] == p.groups[t.group];
      StoredAnswers(p, a, b, t, chunks);
    }
    forall u, l | u in a.s.returned && u.group < |p.groups| && l in p.groups[u.group]
      ensures Answered(b, Slot(u.round, l))
    {
      OthersKeepAnswers(p, a, b, t, chunks, u, l);
    }
  }

  /** Another group's slot keeps its answer. */
  lemma OthersKeepAnswers(p: Plan, a: Sys, b: Sys, t: Ticket, chunks: seq<Chunk>, u: Ticket, l: nat)
    requires PlanOk(p) && StoresGroup(p, a, b, chunks) && AnswersInv(p, a)
    requires t == a.sender.batch[a.sender.n] && u in a.s.returned && u != t
    requires u.group < |p.groups| && l in p.groups[u.group]
    ensures Answered(b, Slot(u.round, l))
  {
    assert Answered(a, Slot(u.round, l));
    MemberOf(p, u.group, l);
    forall k | k in p.groups[t.group] ensures k < |p.layers| && p.groupOf[k] == t.group {
      MemberOf(p, t.group, k);
    }
    if !Refused(p, a.s, t, chunks) {
      OverwrittenIs(p, a.s.queued, t, chunks, Fitting(p, t, chunks, 0));
      OverwrittenIs(p, a.log.answers, t, chunks, |chunks|);
    }
  }

  lemma NotAnswered(p: Plan, a: Sys, t: Ticket)
    requires PlanOk(p) && AnswersInv(p, a) && t.group < |p.groups| && t !in a.log.stored
    ensures forall l | l in p.groups[t.group] :: Slot(t.round, l) !in a.log.answers
  {
    forall l | l in p.groups[t.group] ensures Slot(t.round, l) !in a.log.answers {
      MemberOf(p, t.group, l);
    }
  }

  lemma StoredAnswers(p: Plan, a: Sys, b: Sys, t: Ticket, chunks: seq<Chunk>)
    requires PlanOk(p) && t.group < |p.groups| && |chunks| == |p.groups[t.group]|
    requires b.s.queued == Overwritten(p, a.s.queued, t, chunks, |chunks|)
    requires b.log.answers == Overwritten(p, a.log.answers, t, chunks, |chunks|)
    requires forall l | l in p.groups[t.group] :: Slot(t.round, l) !in b.log.late
    requires forall m | 0 <= m < |chunks| :: MemberFits(p, t, m, chunks[m])
    ensures forall l | l in p.groups[t.group] ::
              Answered(b, Slot(t.round, l)) && Belongs(p, Slot(t.round, l), b.log.answers[Slot(t.round, l)])
  {
    OverwrittenIs(p, a.s.queued, t, chunks, |chunks|);
    OverwrittenIs(p, a.log.answers, t, chunks, |chunks|);
    forall l | l in p.groups[t.group]
      ensures Answered(b, Slot(t.round, l)) && Belongs(p, Slot(t.round, l), b.log.answers[Slot(t.round, l)])
    {
      var m :| 0 <= m < |chunks| && p.groups[t.group][m] == l;
      assert b.s.queued[Slot(t.round, p.groups[t.group][m])] == chunks[m];
      assert b.log.answers[Slot(t.round, p.groups[t.group][m])] == chunks[m];
      assert MemberFits(p, t, m, chunks[m]);
    }
  }

  lemma KeepsLocals(p: Plan, a: Sys, b: Sys, step: Step)
    requires PlanOk(p) && NextStep(p, a, b, step)
    requires LocalsInv(p, a) && SlotsInv(p, a) && HooksInv(p, a) && TakenInv(p, a) && SenderInv(p, a)
    requires QueueInv(p, a.s) && FreshInv(a)
    ensures LocalsInv(p, b)
  {
    match step
    case EndHook(slot, c) => HookKeepsLocals(p, a, b, slot, c);
    case Finalize => FinalizeKeepsLocals(p, a, b);
    case PopFirst => PopKeepsLocals(p, a, b);
    case PopMore => PopKeepsLocals(p, a, b);
    case StoreGroup(chunks) => StoreKeepsLocals(p, a, b, chunks);
    case FinishStep => LocalsStay(p, a, b);
    case _ => LocalsSame(p, a, b);
  }

  lemma HookKeepsLocals(p: Plan, a: Sys, b: Sys, slot: Slot, c: Chunk)
    requires PlanOk(p) && HookEnds(p, a, b, slot, c) && LocalsInv(p, a) && TakenInv(p, a) && PendingOk(p, a, slot)
    ensures LocalsInv(p, b)
  {
    if TicketOf(p, slot) in a.log.taken {
      assert TakenOk(p, a, TicketOf(p, slot));
      assert LocalOk(p, a, slot);
    }
    forall other | other in b.s.queued ensures LocalOk(p, b, other) {
      assert other in a.s.queued ==> LocalOk(p, a, other);
    }
    forall other | other in b.log.payloads ensures PayloadOk(p, b, other) {
      assert PayloadOk(p, a, other);
    }
  }

  lemma LocalsSame(p: Plan, a: Sys, b: Sys)
    requires LocalsInv(p, a) && b.s.queued == a.s.queued
    requires b.log.taken == a.log.taken && b.log.payloads == a.log.payloads && b.log.locals == a.log.locals
    ensures LocalsInv(p, b)
  {
    forall slot | slot in b.s.queued ensures LocalOk(p, b, slot) {
      assert LocalOk(p, a, slot);
    }
    forall slot | slot in b.log.payloads ensures PayloadOk(p, b, slot) {
      assert PayloadOk(p, a, slot);
    }
  }

  /** What was sent in the active round is still queued. */
  lemma SentIsQueued(p: Plan, a: Sys)
    requires PlanOk(p) && LocalsInv(p, a) && TakenInv(p, a)
    ensures forall slot | slot in a.log.payloads && a.s.active == Some(slot.round) :: slot in a.s.queued
  {
    forall slot | slot in a.log.payloads && a.s.active == Some(slot.round) ensures slot in a.s.queued {
      assert PayloadOk(p, a, slot);
      assert TakenOk(p, a, TicketOf(p, slot));
    }
  }

  lemma LocalsStay(p: Plan, a: Sys, b: Sys)
    requires LocalsInv(p, a) && b.log.taken == a.log.taken && b.log.payloads == a.log.payloads
    requires forall slot | slot in a.log.locals ::
               slot in b.log.locals && (b.log.locals[slot] == a.log.locals[slot] || slot !in a.log.payloads)
    requires forall slot | slot in b.s.queued ::
               || (slot in a.s.queued && b.s.queued[slot] == a.s.queued[slot] &&
                   (slot in a.log.locals ==> b.log.locals[slot] == a.log.locals[slot]))
               || (slot.layer < |p.groupOf| && slot in b.log.locals && b.s.queued[slot] == b.log.locals[slot])
    ensures LocalsInv(p, b)
  {
    forall slot | slot in b.s.queued ensures LocalOk(p, b, slot) {
      if slot in a.s.queued {
        assert LocalOk(p, a, slot);
      }
    }
    forall slot | slot in b.log.payloads ensures PayloadOk(p, b, slot) {
      assert PayloadOk(p, a, slot);
    }
  }

  lemma FinalizeKeepsLocals(p: Plan, a: Sys, b: Sys)
    requires PlanOk(p) && Finalizes(p, a, b) && LocalsInv(p, a) && TakenInv(p, a)
    ensures LocalsInv(p, b)
  {
    var r := a.s.active.value;
    FinalizedFrame(p, a.s, r);
    FilledIs(p, a.s.queued, r, |p.layers|);
    SentIsQueued(p, a);
    LocalsStay(p, a, b);
  }

  lemma {:induction false} CopiedIs(p: Plan, queued: map<Slot, Chunk>, payloads: map<Slot, Chunk>, t: Ticket, n: nat)
    requires t.group < |p.groups| && n <= |p.groups[t.group]| && Ready(p, queued, t)
    ensures CopiedFrom(queued, payloads, Copied(p, queued, payloads, t, n), t.round, p.groups[t.group][..n])
  {
    if n > 0 {
      var members := p.groups[t.group];
      CopiedIs(p, queued, payloads, t, n - 1);
      assert members[..n] == members[..n-1] + [members[n-1]];
      CopiedNext(queued, payloads, Copied(p, queued, payloads, t, n - 1), t.round, members[..n-1], members[n-1]);
    }
  }

  /** The payloads of these members are what is queued for them, and the others are as before. */
  ghost predicate CopiedFrom(queued: map<Slot, Chunk>, payloads: map<Slot, Chunk>, copied: map<Slot, Chunk>, round: nat,
                             members: seq<nat>)
  {
    && (forall slot :: slot in copied <==> slot in payloads || (slot.round == round && slot.layer in members))
    && (forall slot | slot in copied && slot.round == round && slot.layer in members ::
          slot in queued && copied[slot] == queued[slot])
    && (forall slot | slot in copied && !(slot.round == round && slot.layer in members) :: copied[slot] == payloads[slot])
  }

  lemma CopiedNext(queued: map<Slot, Chunk>, payloads: map<Slot, Chunk>, copied: map<Slot, Chunk>, round: nat,
                   members: seq<nat>, l: nat)
    requires CopiedFrom(queued, payloads, copied, round, members) && Slot(round, l) in queued
    ensures CopiedFrom(queued, payloads, copied[Slot(round, l) := queued[Slot(round, l)]], round, members + [l])
  {
  }

  lemma PopKeepsLocals(p: Plan, a: Sys, b: Sys)
    requires PlanOk(p) && (PopsFirst(p, a, b) || PopsMore(p, a, b))
    requires LocalsInv(p, a) && QueueInv(p, a.s) && FreshInv(a)
    ensures LocalsInv(p, b)
  {
    var t := a.s.order[0];
    if Taken(p, a.s) {
      CopiedIs(p, a.s.queued, a.log.payloads, t, |p.groups[t.group]|);
      assert p.groups[t.group][..|p.groups[t.group]|] == p.groups[t.group];
    }
    forall slot | slot in b.s.queued ensures LocalOk(p, b, slot) {
      assert LocalOk(p, a, slot);
    }
    forall slot | slot in b.log.payloads ensures PayloadOk(p, b, slot) {
      if Taken(p, a.s) && slot.round == t.round && slot.layer in p.groups[t.group] {
        MemberOf(p, t.group, slot.layer);
        assert LocalOk(p, a, slot);
      } else {
        assert PayloadOk(p, a, slot);
      }
    }
  }

  lemma StoreKeepsLocals(p: Plan, a: Sys, b: Sys, chunks: seq<Chunk>)
    requires PlanOk(p) && StoresGroup(p, a, b, chunks) && LocalsInv(p, a) && SenderInv(p, a) && TakenInv(p, a)
    ensures LocalsInv(p, b)
  {
    StoredSlots(p, a, chunks);
    var t := a.sender.batch[a.sender.n];
    if !Refused(p, a.s, t, chunks) {
      var n := Fitting(p, t, chunks, 0);
      OverwrittenIs(p, a.s.queued, t, chunks, n);
      forall slot | slot in b.s.queued ensures LocalOk(p, b, slot) {
        assert LocalOk(p, a, slot);
        if slot.round == t.round && slot.layer in p.groups[t.group][..n] {
          MemberOf(p, t.group, slot.layer);
        }
      }
      forall slot | slot in b.log.payloads ensures PayloadOk(p, b, slot) {
        assert PayloadOk(p, a, slot);
      }
    } else {
      LocalsStay(p, a, b);
    }
  }

  // ---------- the step gate ----------

  /** An answer is never replaced. */
  lemma AnswersKept(p: Plan, a: Sys, b: Sys, step: Step)
    requires PlanOk(p) && NextStep(p, a, b, step)
    requires AnswersInv(p, a) && SenderInv(p, a) && TakenInv(p, a)
    ensures forall slot | slot in a.log.answers :: slot in b.log.answers && b.log.answers[slot] == a.log.answers[slot]
  {
    match step
    case StoreGroup(chunks) =>
      StoredSlots(p, a, chunks);
      var t := a.sender.batch[a.sender.n];
      assert Awaits(a.sender, t) by { assert t == a.sender.batch[a.sender.n..][0]; }
      if Stores(p, a.s, t, chunks) {
        OverwrittenIs(p, a.log.answers, t, chunks, |chunks|);
        assert p.groups[t.group][..|chunks|] == p.groups[t.group];
        forall slot | slot in a.log.answers ensures !(slot.round == t.round && slot.layer in p.groups[t.group]) {
          if slot.layer in p.groups[t.group] {
            MemberOf(p, t.group, slot.layer);
          }
        }
      }
    case _ =>
  }

  lemma KeepsStored(p: Plan, a: Sys, b: Sys, step: Step)
    requires PlanOk(p) && NextStep(p, a, b, step)
    requires StoredInv(p, a)
    ensures StoredInv(p, b)
  {
    if step.StoreGroup? {
      StoreKeepsStored(p, a, b, step.chunks);
    } else {
      SameStored(p, a, b, step);
    }
  }

  lemma SameStored(p: Plan, a: Sys, b: Sys, step: Step)
    requires PlanOk(p) && NextStep(p, a, b, step) && !step.StoreGroup?
    ensures b.log.stored == a.log.stored && b.log.answers == a.log.answers
  {
  }

  lemma StoreKeepsStored(p: Plan, a: Sys, b: Sys, chunks: seq<Chunk>)
    requires PlanOk(p) && StoresGroup(p, a, b, chunks) && StoredInv(p, a)
    ensures StoredInv(p, b)
  {
    var t := a.sender.batch[a.sender.n];
    if Stores(p, a.s, t, chunks) {
      OverwrittenIs(p, a.log.answers, t, chunks, |chunks|);
      assert p.groups[t.group][..|chunks|] == p.groups[t.group];
    }
  }

  /** The slots of round r hold in the end what they held before. */
  ghost predicate FinalsKept(a: Sys, b: Sys, r: nat) {
    forall slot: Slot | slot in a.log.answers && slot.round == r ::
      slot in b.log.answers && Final(b.log, slot) == Final(a.log, slot)
  }

  /** Only a hook of that round can change them. */
  lemma KeepsFinals(p: Plan, a: Sys, b: Sys, step: Step, r: nat)
    requires PlanOk(p) && NextStep(p, a, b, step)
    requires AnswersInv(p, a) && SenderInv(p, a) && TakenInv(p, a)
    requires step.EndHook? ==> step.slot.round != r
    ensures FinalsKept(a, b, r)
  {
    AnswersKept(p, a, b, step);
    OnlyHooksAreLate(p, a, b, step);
  }

  lemma OnlyHooksAreLate(p: Plan, a: Sys, b: Sys, step: Step)
    requires PlanOk(p) && NextStep(p, a, b, step)
    ensures step.EndHook? || b.log.late == a.log.late
    ensures step.EndHook? ==>
              forall slot | slot != step.slot :: slot in b.log.late <==> slot in a.log.late
    ensures step.EndHook? ==>
              forall slot | slot != step.slot && slot in a.log.late :: b.log.late[slot] == a.log.late[slot]
  {
  }

  lemma StillFromSlots(p: Plan, a: Sys, b: Sys, r: nat, chunks: seq<Chunk>)
    requires FromSlots(p, a, r, chunks) && FinalsKept(a, b, r)
    ensures FromSlots(p, b, r, chunks)
  {
  }

  lemma KeepsComplete(p: Plan, a: Sys, b: Sys, step: Step)
    requires PlanOk(p) && NextStep(p, a, b, step)
    requires CompleteInv(p, a) && TrainerInv(a) && AnswersInv(p, a) && SenderInv(p, a) && TakenInv(p, a) && SetsInv(p, a)
    ensures CompleteInv(p, b)
  {
    KeepsReturned(p, a, b, step);
    KeepsRead(p, a, b, step);
  }

  lemma KeepsReturned(p: Plan, a: Sys, b: Sys, step: Step)
    requires PlanOk(p) && NextStep(p, a, b, step)
    requires AllReturned(p, a) && SetsInv(p, a)
    ensures AllReturned(p, b)
  {
    match step
    case Finalize => FinalizedFrame(p, a.s, a.s.active.value);
    case WaitDone =>
      forall g: nat | g < |p.groups| ensures Ticket(b.trainer.round, g) in b.s.returned {
        assert Ticket(b.trainer.round, g) in Tickets(p, b.trainer.round);
      }
    case _ =>
  }

  lemma KeepsRead(p: Plan, a: Sys, b: Sys, step: Step)
    requires PlanOk(p) && NextStep(p, a, b, step)
    requires AllReturned(p, a) && ReadFromSlots(p, a) && TrainerInv(a)
    requires AnswersInv(p, a) && SenderInv(p, a) && TakenInv(p, a)
    ensures ReadFromSlots(p, b)
  {
    if step == ReadChunks {
      ReadsFromSlots(p, a, b);
    } else if a.trainer.Applying? || a.trainer.Applied? {
      SameTrainer(p, a, b, step);
      KeepsFinals(p, a, b, step, a.trainer.round);
      StillFromSlots(p, a, b, a.trainer.round, a.trainer.chunks);
    } else {
      SameTrainer(p, a, b, step);
    }
  }

  lemma SameTrainer(p: Plan, a: Sys, b: Sys, step: Step)
    requires PlanOk(p) && NextStep(p, a, b, step) && step != ReadChunks && TrainerInv(a)
    ensures b.trainer.Applying? || b.trainer.Applied? ==>
              && (a.trainer.Applying? || a.trainer.Applied?)
              && b.trainer.round == a.trainer.round && b.trainer.chunks == a.trainer.chunks
    ensures a.trainer.Applying? || a.trainer.Applied? ==> !step.EndHook?
  {
  }

  lemma ReadsFromSlots(p: Plan, a: Sys, b: Sys)
    requires PlanOk(p) && Reads(p, a, b) && AllReturned(p, a) && AnswersInv(p, a)
    ensures ReadFromSlots(p, b)
  {
    forall l: nat | l < |p.layers| ensures Answered(a, Slot(a.trainer.round, l)) {
      assert l in p.groups[p.groupOf[l]];
      assert Ticket(a.trainer.round, p.groupOf[l]) in a.s.returned;
    }
  }

  lemma KeepsSteps(p: Plan, a: Sys, b: Sys, step: Step)
    requires PlanOk(p) && NextStep(p, a, b, step)
    requires StepsInv(p, a) && ReadFromSlots(p, a) && TrainerInv(a) && RoundsInv(a) && HooksInv(p, a)
    requires AnswersInv(p, a) && SenderInv(p, a) && TakenInv(p, a)
    ensures StepsInv(p, b)
  {
    forall i | 0 <= i < |a.log.steps| ensures StepOk(p, b, a.log.steps[i]) {
      KeepsStep(p, a, b, step, a.log.steps[i]);
    }
    if step == StepOptimizer {
      forall i | 0 <= i < |a.log.steps| ensures a.log.steps[i].round < a.trainer.round {
        assert StepOk(p, a, a.log.steps[i]);
      }
      KeepsFinals(p, a, b, step, a.trainer.round);
      StillFromSlots(p, a, b, a.trainer.round, a.trainer.chunks);
    } else {
      SameSteps(p, a, b, step);
    }
  }

  lemma SameSteps(p: Plan, a: Sys, b: Sys, step: Step)
    requires PlanOk(p) && NextStep(p, a, b, step) && step != StepOptimizer
    ensures b.log.steps == a.log.steps
  {
  }

  /** A step that was made stays right: its round is over. */
  lemma KeepsStep(p: Plan, a: Sys, b: Sys, step: Step, x: OptimizerStep)
    requires PlanOk(p) && NextStep(p, a, b, step) && StepOk(p, a, x)
    requires TrainerInv(a) && RoundsInv(a) && HooksInv(p, a)
    requires AnswersInv(p, a) && SenderInv(p, a) && TakenInv(p, a)
    ensures StepOk(p, b, x)
  {
    RoundStaysOver(p, a, b, step, x.round);
    KeepsFinals(p, a, b, step, x.round);
    StillFromSlots(p, a, b, x.round, x.chunks);
  }

  lemma RoundStaysOver(p: Plan, a: Sys, b: Sys, step: Step, r: nat)
    requires PlanOk(p) && NextStep(p, a, b, step) && Over(a, r)
    requires TrainerInv(a) && RoundsInv(a) && HooksInv(p, a)
    ensures Over(b, r)
    ensures step.EndHook? ==> step.slot.round != r
  {
    match step
    case EndHook(slot, c) => assert PendingOk(p, a, slot);
    case Finalize => FinalizedFrame(p, a.s, a.s.active.value);
    case _ =>
  }

  // ---------- batches ----------

  lemma {:induction false} BytesSame(p: Plan, before: map<Slot, Chunk>, after: map<Slot, Chunk>, t: Ticket, n: nat)
    requires t.group < |p.groups| && n <= |p.groups[t.group]| && Ready(p, before, t) && Ready(p, after, t)
    requires forall l | l in p.groups[t.group] :: after[Slot(t.round, l)] == before[Slot(t.round, l)]
    ensures PayloadBytes(p, before, t, n) == PayloadBytes(p, after, t, n)
  {
    if n > 0 {
      BytesSame(p, before, after, t, n - 1);
    }
  }

  lemma {:induction false} BatchBytesSame(p: Plan, before: map<Slot, Chunk>, after: map<Slot, Chunk>, batch: seq<Ticket>)
    requires forall t | t in batch :: t.group < |p.groups| && Ready(p, before, t) && Ready(p, after, t)
    requires forall t, l | t in batch && l in p.groups[t.group] && Slot(t.round, l) in before && Slot(t.round, l) in after ::
               after[Slot(t.round, l)] == before[Slot(t.round, l)]
    ensures BatchBytes(p, before, batch) == BatchBytes(p, after, batch)
  {
    if batch != [] {
      var t := batch[|batch| - 1];
      BatchBytesSame(p, before, after, batch[..|batch| - 1]);
      assert t in batch;
      BytesSame(p, before, after, t, |p.groups[t.group]|);
    }
  }

  lemma KeepsBatch(p: Plan, a: Sys, b: Sys, step: Step)
    requires PlanOk(p) && NextStep(p, a, b, step)
    requires BatchInv(p, a) && SenderInv(p, a) && QueueInv(p, a.s) && FreshInv(a)
    ensures BatchInv(p, b)
  {
    match step
    case PopFirst => PopFirstKeepsBatch(p, a, b);
    case PopMore => PopMoreKeepsBatch(p, a, b);
    case _ => BatchStays(p, a, b);
  }

  lemma BatchStays(p: Plan, a: Sys, b: Sys)
    requires BatchInv(p, a) && b.log.payloads == a.log.payloads
    requires BatchOf(b.sender) == BatchOf(a.sender) || BatchOf(b.sender) == []
    requires b.sender.Collecting? ==> b.sender == a.sender
    ensures BatchInv(p, b)
  {
  }

  lemma PopFirstKeepsBatch(p: Plan, a: Sys, b: Sys)
    requires PlanOk(p) && PopsFirst(p, a, b)
    ensures BatchInv(p, b)
  {
    if Taken(p, a.s) {
      OneFits(p, a, a.s.order[0]);
    }
  }

  lemma OneFits(p: Plan, a: Sys, t: Ticket)
    requires PlanOk(p) && t.group < |p.groups| && Ready(p, a.s.queued, t)
    ensures var payloads := WithTaken(p, a, t).payloads;
            BatchBytes(p, payloads, [t]) == GroupBytes(p, a.s.queued, t) && Ready(p, payloads, t)
  {
    var payloads := WithTaken(p, a, t).payloads;
    TakenPayloads(p, a, t);
    BytesSame(p, a.s.queued, payloads, t, |p.groups[t.group]|);
    BatchOfOne(p, payloads, t);
  }

  /** The payload of the group is what was queued for it, and no other payload changed. */
  lemma TakenPayloads(p: Plan, a: Sys, t: Ticket)
    requires t.group < |p.groups| && Ready(p, a.s.queued, t)
    ensures var payloads := WithTaken(p, a, t).payloads;
            && Ready(p, payloads, t)
            && (forall l | l in p.groups[t.group] :: payloads[Slot(t.round, l)] == a.s.queued[Slot(t.round, l)])
            && (forall slot | slot in a.log.payloads && !(slot.round == t.round && slot.layer in p.groups[t.group]) ::
                  slot in payloads && payloads[slot] == a.log.payloads[slot])
            && (forall slot | slot in a.log.payloads :: slot in payloads)
  {
    CopiedIs(p, a.s.queued, a.log.payloads, t, |p.groups[t.group]|);
    assert p.groups[t.group][..|p.groups[t.group]|] == p.groups[t.group];
  }

  lemma BatchOfOne(p: Plan, payloads: map<Slot, Chunk>, t: Ticket)
    requires t.group < |p.groups| && Ready(p, payloads, t)
    ensures BatchBytes(p, payloads, [t]) == GroupBytes(p, payloads, t)
  {
    var one := [t];
    assert one[..|one| - 1] == [];
  }

  lemma BatchMore(p: Plan, payloads: map<Slot, Chunk>, batch: seq<Ticket>, t: Ticket)
    requires t.group < |p.groups| && Ready(p, payloads, t)
    ensures BatchBytes(p, payloads, batch + [t]) == BatchBytes(p, payloads, batch) + GroupBytes(p, payloads, t)
  {
    assert (batch + [t])[..|batch|] == batch;
  }

  lemma PopMoreKeepsBatch(p: Plan, a: Sys, b: Sys)
    requires PlanOk(p) && PopsMore(p, a, b) && BatchInv(p, a) && SenderInv(p, a) && FreshInv(a)
    ensures BatchInv(p, b)
  {
    if Taken(p, a.s) {
      assert a.s.order[0] in a.s.order && a.s.order[0] !in a.log.taken;
      TakesMore(p, a, b, a.s.order[0]);
    } else {
      BatchStays(p, a, b);
    }
  }

  lemma TakesMore(p: Plan, a: Sys, b: Sys, t: Ticket)
    requires PlanOk(p) && PopsMore(p, a, b) && BatchInv(p, a) && Taken(p, a.s) && t == a.s.order[0] && t !in a.sender.batch
    ensures BatchInv(p, b)
  {
    PopFits(p, a, t, a.sender.batch);
  }

  /** One more group: its payload is counted, and the groups taken before keep theirs. */
  lemma PopFits(p: Plan, a: Sys, t: Ticket, batch: seq<Ticket>)
    requires PlanOk(p) && t.group < |p.groups| && Ready(p, a.s.queued, t) && t !in batch
    requires forall u | u in batch :: u.group < |p.groups| && Ready(p, a.log.payloads, u)
    ensures var payloads := WithTaken(p, a, t).payloads;
            && BatchBytes(p, payloads, batch + [t]) == BatchBytes(p, a.log.payloads, batch) + GroupBytes(p, a.s.queued, t)
            && (forall u | u in batch + [t] :: u.group < |p.groups| && Ready(p, payloads, u))
  {
    var payloads := WithTaken(p, a, t).payloads;
    TakenPayloads(p, a, t);
    forall u, l | u in batch && l in p.groups[u.group]
      ensures Slot(u.round, l) in payloads && payloads[Slot(u.round, l)] == a.log.payloads[Slot(u.round, l)]
    {
      MemberOf(p, u.group, l);
      if l in p.groups[t.group] {
        MemberOf(p, t.group, l);
      }
    }
    BatchBytesSame(p, a.log.payloads, payloads, batch);
    BytesSame(p, a.s.queued, payloads, t, |p.groups[t.group]|);
    BatchMore(p, payloads, batch, t);
  }

  // ---------- order ----------

  lemma {:induction false} WithinSelf(x: seq<Ticket>)
    ensures Within(x, x)
  {
    if x != [] {
      WithinSelf(x[..|x| - 1]);
    }
  }

  lemma {:induction false} WithinTransitive(x: seq<Ticket>, y: seq<Ticket>, z: seq<Ticket>)
    requires Within(x, y) && Within(y, z)
    ensures Within(x, z)
    decreases |y| + |z|
  {
    if x != [] {
      if Within(y, z[..|z| - 1]) {
        WithinTransitive(x, y, z[..|z| - 1]);
      } else if Within(x, y[..|y| - 1]) {
        WithinTransitive(x, y[..|y| - 1], z[..|z| - 1]);
      } else {
        WithinTransitive(x[..|x| - 1], y[..|y| - 1], z[..|z| - 1]);
      }
    }
  }

  lemma {:induction false} WithinAppend(x: seq<Ticket>, y: seq<Ticket>, w: seq<Ticket>)
    requires Within(x, y)
    ensures Within(x + w, y + w)
    decreases |w|
  {
    if w == [] {
      assert x + w == x && y + w == y;
    } else {
      var last := |w| - 1;
      WithinAppend(x, y, w[..last]);
      WithinOneMore(x + w[..last], y + w[..last], w[last]);
      assert w == w[..last] + [w[last]];
      assert x + w == x + w[..last] + [w[last]];
      assert y + w == y + w[..last] + [w[last]];
    }
  }

  lemma WithinOneMore(x: seq<Ticket>, y: seq<Ticket>, t: Ticket)
    requires Within(x, y)
    ensures Within(x + [t], y + [t])
  {
    assert (x + [t])[..|x + [t]| - 1] == x;
    assert (y + [t])[..|y + [t]| - 1] == y;
  }

  lemma {:induction false} WithinPrepend(w: seq<Ticket>, x: seq<Ticket>, y: seq<Ticket>)
    requires Within(x, y)
    ensures Within(w + x, w + y)
    decreases |y|
  {
    if x == [] {
      assert w + x == w;
      PrefixWithin(w, y);
    } else {
      assert (w + y)[..|w + y| - 1] == w + y[..|y| - 1];
      assert (w + x)[..|w + x| - 1] == w + x[..|x| - 1];
      if Within(x, y[..|y| - 1]) {
        WithinPrepend(w, x, y[..|y| - 1]);
      } else {
        WithinPrepend(w, x[..|x| - 1], y[..|y| - 1]);
      }
    }
  }

  lemma {:induction false} PrefixWithin(w: seq<Ticket>, y: seq<Ticket>)
    ensures Within(w, w + y)
    decreases |y|
  {
    if y == [] {
      assert w + y == w;
      WithinSelf(w);
    } else {
      PrefixWithin(w, y[..|y| - 1]);
      assert (w + y)[..|w + y| - 1] == w + y[..|y| - 1];
    }
  }

  lemma {:induction false} PurgedWithin(order: seq<Ticket>, round: nat)
    ensures Within(Purged(order, round), order)
  {
    if order != [] {
      PurgedWithin(order[..|order| - 1], round);
      if order[|order| - 1].round != round {
        WithinAppend(Purged(order[..|order| - 1], round), order[..|order| - 1], [order[|order| - 1]]);
        assert order == order[..|order| - 1] + [order[|order| - 1]];
      }
    }
  }

  lemma KeepsOrder(p: Plan, a: Sys, b: Sys, step: Step)
    requires PlanOk(p) && NextStep(p, a, b, step)
    requires OrderInv(a)
    ensures OrderInv(b)
  {
    match step
    case EndHook(slot, c) => GrownOrder(a, b);
    case Finalize =>
      FinalizedFrame(p, a.s, a.s.active.value);
      GrownOrder(a, b);
    case PopFirst => PoppedOrder(a, b);
    case PopMore => PoppedOrder(a, b);
    case TimeOut => PurgedOrder(a, b, a.trainer.round);
    case FailRaised => PurgedOrder(a, b, a.trainer.round);
    case FailBatch => PurgedOrder(a, b, a.sender.round);
    case FinishStep =>
      if a.s.active.Some? {
        PurgedOrder(a, b, a.s.active.value);
      }
    case Shutdown =>
      if a.s.active.Some? {
        PurgedOrder(a, b, a.s.active.value);
      }
    case _ =>
  }

  lemma GrownOrder(a: Sys, b: Sys)
    requires OrderInv(a) && a.s.order <= b.s.order && b.log.taken == a.log.taken
    requires b.log.enqueuings == a.log.enqueuings + b.s.order[|a.s.order|..]
    ensures OrderInv(b)
  {
    var w := b.s.order[|a.s.order|..];
    WithinAppend(a.log.taken + a.s.order, a.log.enqueuings, w);
    assert a.log.taken + a.s.order + w == b.log.taken + b.s.order;
  }

  lemma PoppedOrder(a: Sys, b: Sys)
    requires OrderInv(a) && a.s.order != [] && b.s.order == a.s.order[1..] && b.log.enqueuings == a.log.enqueuings
    requires b.log.taken == a.log.taken || b.log.taken == a.log.taken + [a.s.order[0]]
    ensures OrderInv(b)
  {
    var t := a.s.order[0];
    assert a.s.order == [t] + b.s.order;
    if b.log.taken == a.log.taken {
      PrefixWithin([], [t]);
      WithinAppend([], [t], b.s.order);
      assert [] + b.s.order == b.s.order;
      SmallerQueue(a, b);
    } else {
      assert b.log.taken + b.s.order == a.log.taken + a.s.order;
    }
  }

  lemma SmallerQueue(a: Sys, b: Sys)
    requires OrderInv(a) && b.log.enqueuings == a.log.enqueuings && b.log.taken == a.log.taken
    requires Within(b.s.order, a.s.order)
    ensures OrderInv(b)
  {
    WithinPrepend(a.log.taken, b.s.order, a.s.order);
    WithinTransitive(b.log.taken + b.s.order, a.log.taken + a.s.order, a.log.enqueuings);
  }

  lemma PurgedOrder(a: Sys, b: Sys, round: nat)
    requires OrderInv(a) && b.s.order == Purged(a.s.order, round)
    requires b.log.enqueuings == a.log.enqueuings && b.log.taken == a.log.taken
    ensures OrderInv(b)
  {
    PurgedWithin(a.s.order, round);
    SmallerQueue(a, b);
  }

  // ---------- every run ----------

  lemma InitInv(p: Plan)
    requires PlanOk(p)
    ensures Inv(p, Init())
  {
    InitPlaces(p);
    InitChunks(p);
  }

  lemma InitPlaces(p: Plan)
    ensures PlacesInv(p, Init())
  {
  }

  lemma InitChunks(p: Plan)
    ensures ChunksInv(p, Init())
  {
  }

  lemma NextInv(p: Plan, a: Sys, b: Sys)
    requires PlanOk(p) && Inv(p, a) && Next(p, a, b)
    ensures Inv(p, b)
  {
    var step :| NextStep(p, a, b, step);
    KeepsPlaces(p, a, b, step);
    KeepsChunks(p, a, b, step);
  }

  lemma KeepsPlaces(p: Plan, a: Sys, b: Sys, step: Step)
    requires PlanOk(p) && Inv(p, a) && NextStep(p, a, b, step)
    ensures PlacesInv(p, b)
  {
    KeepsRounds(p, a, b, step);
    KeepsTrainer(p, a, b, step);
    KeepsQueue(p, a, b, step);
    KeepsSlots(p, a, b, step);
    KeepsHooks(p, a, b, step);
    KeepsSender(p, a, b, step);
    KeepsTaken(p, a, b, step);
    KeepsFresh(p, a, b, step);
    KeepsSets(p, a, b, step);
    KeepsSplit(p, a, b, step);
    KeepsCovered(p, a, b, step);
  }

  lemma KeepsChunks(p: Plan, a: Sys, b: Sys, step: Step)
    requires PlanOk(p) && Inv(p, a) && NextStep(p, a, b, step)
    ensures ChunksInv(p, b)
  {
    KeepsAnswers(p, a, b, step);
    KeepsStored(p, a, b, step);
    KeepsLocals(p, a, b, step);
    KeepsComplete(p, a, b, step);
    KeepsSteps(p, a, b, step);
    KeepsBatch(p, a, b, step);
    KeepsOrder(p, a, b, step);
  }

  lemma LinkedInv(p: Plan, run: seq<Sys>, i: nat)
    requires PlanOk(p) && i < |run| - 1 && Linked(p, run, i) && Inv(p, run[i])
    ensures Inv(p, run[i+1])
  {
    NextInv(p, run[i], run[i+1]);
  }

  ghost predicate InvAt(p: Plan, run: seq<Sys>, i: nat) {
    i < |run| && Inv(p, run[i])
  }

  lemma RunInv(p: Plan, run: seq<Sys>, i: nat)
    requires PlanOk(p) && Run(p, run) && i < |run|
    ensures Inv(p, run[i])
  {
    InitInv(p);
    var n: nat := 0;
    while n < i
      invariant n <= i && InvAt(p, run, n)
    {
      assert Linked(p, run, n);
      LinkedInv(p, run, n);
      n := n + 1;
    }
  }
}
