/** Runs of the prepared runtime: backward hooks, which may fire any number of times in a round, the training thread
    inside step() and the sender thread, interleaved at the boundaries of their critical sections, with shutdown at any
    time. Timeouts, transport failures and rejected gradients are steps that may happen whenever the code could take
    them. */
module PreparedRuns {
  import opened Wrappers
  import opened Gradients
  import opened PreparedSpec

  /** Where the training thread is. Hooks fire in Backward; the other states are inside step(). */
  datatype Trainer =
    | Backward
    | Waiting(round: nat)
    | Complete(round: nat)
    | Applying(round: nat, chunks: seq<Chunk>)
    | Applied(round: nat, chunks: seq<Chunk>)
    | Raised(round: nat)
    | Finishing

  /** Where the sender thread is. In Storing, the first n groups of the batch have been stored. */
  datatype Sender =
    | Idle
    | Collecting(round: nat, batch: seq<Ticket>, bytes: nat)
    | Sending(round: nat, batch: seq<Ticket>)
    | Storing(round: nat, batch: seq<Ticket>, n: nat)
    | Failing(round: nat, batch: seq<Ticket>)
    | Stopped

  /** One call of the wrapped optimizer's step, with the gradients that were applied before it. */
  datatype OptimizerStep = OptimizerStep(round: nat, chunks: seq<Chunk>)

  /** What has happened so far; nothing in the runtime reads it.
      locals: the last chunk that was queued for a slot, by its hook or by finalizing the round, before its group
      was taken to be sent. payloads: what was built to be sent for it. answers: what the Master returned for it.
      late: the last chunk that a hook queued for it after that.
      enqueuings: the groups that were ever put into the queue, in order.
      taken: the groups that joined a batch, in order. stored: those whose answer has been stored. */
  datatype Log = Log(
    locals: map<Slot, Chunk>,
    payloads: map<Slot, Chunk>,
    answers: map<Slot, Chunk>,
    late: map<Slot, Chunk>,
    enqueuings: seq<Ticket>,
    taken: seq<Ticket>,
    stored: set<Ticket>,
    steps: seq<OptimizerStep>)

  /** pending: the hooks that have begun and not ended. fired: the layers whose hook has begun in this round; no
      step reads it. */
  datatype Sys = Sys(s: State, pending: set<Slot>, fired: set<nat>, trainer: Trainer, sender: Sender, log: Log)

  datatype Step =
    | BeginHook(layer: nat)
    | EndHook(slot: Slot, chunk: Chunk)
    | BeginCapture
    | Finalize
    | WaitDone
    | WaitFailed
    | TimeOut
    | ReadChunks
    | ApplyDone
    | ApplyRejected
    | FailRaised
    | StepOptimizer
    | FinishStep
    | PopFirst
    | PopMore
    | CloseBatch
    | Respond
    | StoreGroup(chunks: seq<Chunk>)
    | StoreDone
    | SendFailed
    | FailBatch
    | StopSender
    | Shutdown

  ghost function Init(): Sys {
    Sys(INITIAL, {}, {}, Backward, Idle, Log(map[], map[], map[], map[], [], [], {}, []))
  }

  // ---------- the training thread ----------

  /** First critical section of record_ready_layer. A hook can fire again in a round, once its last call has ended. */
  predicate HookBegins(p: Plan, a: Sys, b: Sys, l: nat) {
    && a.trainer == Backward && l < |p.layers|
    && var s := Opened(a.s);
       && s.active.Some? && Slot(s.active.value, l) !in a.pending
       && b == a.(s := s, fired := a.fired + {l}, pending := a.pending + {Slot(s.active.value, l)})
  }

  /** Its second critical section, after the gradient has been compressed outside the lock. */
  predicate HookEnds(p: Plan, a: Sys, b: Sys, slot: Slot, c: Chunk)
    requires PlanOk(p)
  {
    && slot in a.pending && slot.layer < |p.layers|
    && var s := ChunkQueued(p, a.s, slot, c);
       && |a.s.order| <= |s.order|
       && b == a.(s := s, pending := a.pending - {slot},
                  log := WithHook(p, a.log, slot, c).(enqueuings := a.log.enqueuings + s.order[|a.s.order|..]))
  }

  function WithHook(p: Plan, log: Log, slot: Slot, c: Chunk): Log
    requires slot.layer < |p.groupOf|
  {
    log.(locals := if TicketOf(p, slot) in log.taken then log.locals else log.locals[slot := c],
         late := if slot in log.answers then log.late[slot := c] else log.late)
  }

  predicate CaptureBegins(a: Sys, b: Sys) {
    && a.trainer == Backward && a.s.active.None?
    && b == a.(s := Opened(a.s))
  }

  /** step() starts once all hooks have ended. */
  predicate Finalizes(p: Plan, a: Sys, b: Sys) {
    && a.trainer == Backward && a.pending == {} && a.s.active.Some?
    && var r := a.s.active.value;
       && r !in a.s.applied
       && var s := Finalized(p, a.s, r);
          && |a.s.order| <= |s.order|
          && b == a.(s := s, trainer := Waiting(r),
                     log := a.log.(locals := WithEmpty(a.log.locals, a.s.queued, s.queued),
                                   enqueuings := a.log.enqueuings + s.order[|a.s.order|..]))
  }

  /** The empty chunks that were filled in count as local chunks. */
  function WithEmpty(locals: map<Slot, Chunk>, before: map<Slot, Chunk>, after: map<Slot, Chunk>): map<Slot, Chunk> {
    locals + (map slot | slot in after && slot !in before :: after[slot])
  }

  predicate Waits(p: Plan, a: Sys, b: Sys, step: Step) {
    && a.trainer.Waiting?
    && var r := a.trainer.round;
       match step
       case WaitDone => r !in a.s.failed && Of(a.s.returned, r) == Tickets(p, r) && b == a.(trainer := Complete(r))
       case WaitFailed => r in a.s.failed && b == a.(trainer := Raised(r))
       case TimeOut => r > 1 && r !in a.s.failed && Of(a.s.returned, r) != Tickets(p, r) &&
                       b == a.(s := RoundFailed(a.s, r), trainer := Raised(r))
       case _ => false
  }

  ghost predicate Reads(p: Plan, a: Sys, b: Sys) {
    && a.trainer.Complete?
    && var r := a.trainer.round;
       && (forall l: nat | l < |p.layers| :: Slot(r, l) in a.s.queued)
       && b == a.(trainer := Applying(r, Ordered(p, a.s.queued, r)))
  }

  predicate Applies(p: Plan, a: Sys, b: Sys) {
    && a.trainer.Applying?
    && b == a.(s := MarkedApplied(p, a.s, a.trainer.round), trainer := Applied(a.trainer.round, a.trainer.chunks))
  }

  predicate Rejects(a: Sys, b: Sys) {
    a.trainer.Applying? && b == a.(trainer := Raised(a.trainer.round))
  }

  predicate FailsRaised(a: Sys, b: Sys) {
    a.trainer.Raised? && b == a.(s := RoundFailed(a.s, a.trainer.round), trainer := Finishing)
  }

  predicate StepsOptimizer(a: Sys, b: Sys) {
    && a.trainer.Applied?
    && b == a.(trainer := Finishing,
               log := a.log.(steps := a.log.steps + [OptimizerStep(a.trainer.round, a.trainer.chunks)]))
  }

  predicate Finishes(a: Sys, b: Sys) {
    a.trainer == Finishing && b == a.(s := Finished(a.s), fired := {}, trainer := Backward)
  }

  // ---------- the sender thread ----------

  /** The first group of a batch is taken whatever its size. */
  predicate PopsFirst(p: Plan, a: Sys, b: Sys) {
    && a.sender == Idle && !a.s.shutdown
    && a.s.order != [] && a.s.order[0].group < |p.groups|
    && var t := a.s.order[0];
       if Taken(p, a.s) then
         b == a.(s := Popped(p, a.s), sender := Collecting(t.round, [t], GroupBytes(p, a.s.queued, t)),
                 log := WithTaken(p, a, t))
       else
         b == a.(s := Popped(p, a.s), sender := if t.round in a.s.failed then Idle else Collecting(t.round, [], 0))
  }

  /** One more group of the same round, within the limits. */
  predicate PopsMore(p: Plan, a: Sys, b: Sys) {
    && a.sender.Collecting? && |a.sender.batch| < p.maxGroups
    && a.s.order != [] && a.s.order[0].group < |p.groups|
    && var t := a.s.order[0];
       && t.round == a.sender.round && Ready(p, a.s.queued, t)
       && var bytes := a.sender.bytes + GroupBytes(p, a.s.queued, t);
          && (a.sender.batch == [] || bytes <= p.maxBytes)
          && if Taken(p, a.s) then
               b == a.(s := Popped(p, a.s), sender := Collecting(t.round, a.sender.batch + [t], bytes),
                       log := WithTaken(p, a, t))
             else b == a.(s := Popped(p, a.s))
  }

  function WithTaken(p: Plan, a: Sys, t: Ticket): Log
    requires t.group < |p.groups| && Ready(p, a.s.queued, t)
  {
    a.log.(taken := a.log.taken + [t],
           payloads := Copied(p, a.s.queued, a.log.payloads, t, |p.groups[t.group]|))
  }

  /** The payload of a group is built when it is taken from the queue. */
  function Copied(p: Plan, queued: map<Slot, Chunk>, payloads: map<Slot, Chunk>, t: Ticket, n: nat): map<Slot, Chunk>
    requires t.group < |p.groups| && n <= |p.groups[t.group]| && Ready(p, queued, t)
  {
    if n == 0 then payloads
    else
      var slot := Slot(t.round, p.groups[t.group][n-1]);
      Copied(p, queued, payloads, t, n - 1)[slot := queued[slot]]
  }

  predicate Closes(a: Sys, b: Sys) {
    && a.sender.Collecting?
    && b == a.(sender := if a.sender.batch == [] then Idle else Sending(a.sender.round, a.sender.batch))
  }

  predicate Responds(a: Sys, b: Sys) {
    a.sender.Sending? && b == a.(sender := Storing(a.sender.round, a.sender.batch, 0))
  }

  /** The next group of the response, whatever the Master answered for it. */
  predicate StoresGroup(p: Plan, a: Sys, b: Sys, chunks: seq<Chunk>) {
    && a.sender.Storing? && a.sender.n < |a.sender.batch|
    && var t := a.sender.batch[a.sender.n];
       && t.group < |p.groups|
       && if Stores(p, a.s, t, chunks) then
            b == a.(s := Stored(p, a.s, t, chunks),
                    sender := Storing(a.sender.round, a.sender.batch, a.sender.n + 1),
                    log := a.log.(stored := a.log.stored + {t},
                                  answers := Overwritten(p, a.log.answers, t, chunks, |chunks|)))
          else
            b == a.(s := Stored(p, a.s, t, chunks), sender := Failing(a.sender.round, a.sender.batch))
  }

  predicate StoringEnds(a: Sys, b: Sys) {
    a.sender.Storing? && a.sender.n == |a.sender.batch| && b == a.(sender := Idle)
  }

  /** The transport raised, or the response as a whole was refused before the lock was taken. */
  predicate FailsToSend(a: Sys, b: Sys) {
    (a.sender.Sending? || a.sender.Storing?) && b == a.(sender := Failing(a.sender.round, a.sender.batch))
  }

  predicate FailsBatch(a: Sys, b: Sys) {
    a.sender.Failing? && b == a.(s := BatchFailed(a.s, a.sender.batch, a.sender.round), sender := Idle)
  }

  predicate Stops(a: Sys, b: Sys) {
    a.s.shutdown && (a.sender == Idle || a.sender.Collecting?) && b == a.(sender := Stopped)
  }

  predicate ShutsDown(a: Sys, b: Sys) {
    b == a.(s := ShutDown(a.s))
  }

  ghost predicate NextStep(p: Plan, a: Sys, b: Sys, step: Step)
    requires PlanOk(p)
  {
    match step
    case BeginHook(l) => HookBegins(p, a, b, l)
    case EndHook(slot, c) => HookEnds(p, a, b, slot, c)
    case BeginCapture => CaptureBegins(a, b)
    case Finalize => Finalizes(p, a, b)
    case WaitDone => Waits(p, a, b, WaitDone)
    case WaitFailed => Waits(p, a, b, WaitFailed)
    case TimeOut => Waits(p, a, b, TimeOut)
    case ReadChunks => Reads(p, a, b)
    case ApplyDone => Applies(p, a, b)
    case ApplyRejected => Rejects(a, b)
    case FailRaised => FailsRaised(a, b)
    case StepOptimizer => StepsOptimizer(a, b)
    case FinishStep => Finishes(a, b)
    case PopFirst => PopsFirst(p, a, b)
    case PopMore => PopsMore(p, a, b)
    case CloseBatch => Closes(a, b)
    case Respond => Responds(a, b)
    case StoreGroup(chunks) => StoresGroup(p, a, b, chunks)
    case StoreDone => StoringEnds(a, b)
    case SendFailed => FailsToSend(a, b)
    case FailBatch => FailsBatch(a, b)
    case StopSender => Stops(a, b)
    case Shutdown => ShutsDown(a, b)
  }

  ghost predicate Next(p: Plan, a: Sys, b: Sys)
    requires PlanOk(p)
  {
    exists step :: NextStep(p, a, b, step)
  }

  // ---------- invariants ----------

  /** A round that is over or running. */
  ghost predicate Known(a: Sys, r: nat) {
    r < a.s.nextRound || a.s.active == Some(r)
  }

  ghost predicate RoundsInv(a: Sys) {
    && (a.s.active.Some? ==> a.s.active.value == a.s.nextRound)
    && (forall r | r in a.s.failed :: Known(a, r))
  }

  ghost predicate TrainerInv(a: Sys) {
    && (a.trainer != Backward ==> a.pending == {} && a.s.active.Some?)
    && (a.trainer != Backward && a.trainer != Finishing ==> a.s.active == Some(a.trainer.round))
  }

  ghost predicate Current(p: Plan, a: Sys, t: Ticket) {
    a.s.active == Some(t.round) && t.group < |p.groups|
  }

  /** The queue holds exactly what is marked as enqueued, without repeats, and only ready groups of the active round. */
  ghost predicate QueueInv(p: Plan, s: State) {
    && NoRepeats(s.order)
    && Marked(s.order, s.enqueued)
    && (forall t | t in s.order :: QueuedOk(p, s, t))
  }

  ghost predicate NoRepeats(tickets: seq<Ticket>) {
    forall i, j | 0 <= i < j < |tickets| :: tickets[i] != tickets[j]
  }

  ghost predicate Marked(order: seq<Ticket>, enqueued: set<Ticket>) {
    forall t: Ticket :: t in order <==> t in enqueued
  }

  ghost predicate QueuedOk(p: Plan, s: State, t: Ticket) {
    s.active == Some(t.round) && t.group < |p.groups| && Ready(p, s.queued, t)
  }

  ghost predicate SlotsInv(p: Plan, a: Sys) {
    forall slot | slot in a.s.queued :: a.s.active == Some(slot.round) && slot.layer < |p.layers|
  }

  ghost predicate HooksInv(p: Plan, a: Sys) {
    && (forall slot | slot in a.pending :: PendingOk(p, a, slot))
    && (a.trainer == Backward ==> forall slot | slot in a.s.queued :: slot.layer in a.fired)
    && (a.s.active.None? ==> a.pending == {} && a.fired == {})
  }

  ghost predicate PendingOk(p: Plan, a: Sys, slot: Slot) {
    a.s.active == Some(slot.round) && slot.layer < |p.layers| && slot.layer in a.fired
  }

  function BatchOf(sender: Sender): seq<Ticket> {
    if sender == Idle || sender == Stopped then [] else sender.batch
  }

  /** The groups of the batch whose answer has not been stored. */
  ghost predicate Awaits(sender: Sender, t: Ticket) {
    match sender
    case Collecting(_, batch, _) => t in batch
    case Sending(_, batch) => t in batch
    case Storing(_, batch, n) => n <= |batch| && t in batch[n..]
    case _ => false
  }

  ghost predicate SenderInv(p: Plan, a: Sys) {
    && (a.sender != Idle && a.sender != Stopped ==> Known(a, a.sender.round))
    && (forall t | t in BatchOf(a.sender) :: t.round == a.sender.round && t in a.log.taken)
    && NoRepeats(BatchOf(a.sender))
    && (a.sender.Storing? ==> a.sender.n <= |a.sender.batch|)
    && (forall t | Awaits(a.sender, t) :: t !in a.log.stored)
  }

  ghost predicate TakenInv(p: Plan, a: Sys) {
    && NoRepeats(a.log.taken)
    && (forall t | t in a.log.taken :: TakenOk(p, a, t))
    && (forall t | t in a.log.stored :: t in a.log.taken)
  }

  ghost predicate TakenOk(p: Plan, a: Sys, t: Ticket) {
    && Known(a, t.round) && t.group < |p.groups|
    && (a.s.active == Some(t.round) ==> Ready(p, a.s.queued, t))
    && (a.s.active == Some(t.round) && t.round !in a.s.failed ==> t in a.s.submitted)
  }

  /** While its round has not failed, a group in the queue has never been taken. */
  ghost predicate FreshInv(a: Sys) {
    forall t | t in a.s.order && t.round !in a.s.failed :: t !in a.log.taken
  }

  ghost predicate SetsInv(p: Plan, a: Sys) {
    && (forall t | t in a.s.submitted :: Current(p, a, t) && t in a.log.taken)
    && (forall t | t in a.s.inflight :: Current(p, a, t) && t in a.log.taken && t !in a.log.stored)
    && (forall t | t in a.s.returned :: Current(p, a, t) && t in a.log.stored)
  }

  /** While its round has not failed, a submitted group is in flight or has returned, unless it is in a batch
      that the sender is about to fail. */
  ghost predicate SplitInv(a: Sys) {
    forall t | t in a.s.submitted && t.round !in a.s.failed ::
      t in a.s.inflight || t in a.s.returned || (a.sender.Failing? && t in a.sender.batch)
  }

  ghost predicate AnswersInv(p: Plan, a: Sys) {
    && (forall t | t in a.s.returned && t.group < |p.groups| ::
          forall l | l in p.groups[t.group] :: Answered(a, Slot(t.round, l)))
    && (forall slot | slot in a.log.answers ::
          slot.layer < |p.groupOf| && TicketOf(p, slot) in a.log.stored)
    && (forall slot | slot in a.log.answers :: Belongs(p, slot, a.log.answers[slot]))
    && (forall slot | slot in a.log.late :: slot in a.log.answers)
  }

  /** A stored group has an answer for each of its layers. */
  ghost predicate StoredInv(p: Plan, a: Sys) {
    forall t, l | t in a.log.stored && t.group < |p.groups| && l in p.groups[t.group] :: Slot(t.round, l) in a.log.answers
  }

  /** What a slot holds once its answer has been stored: the answer, or the chunk of the last hook that ended after. */
  function Final(log: Log, slot: Slot): Chunk
    requires slot in log.answers
  {
    if slot in log.late then log.late[slot] else log.answers[slot]
  }

  /** The chunk is about this layer and this round. */
  ghost predicate Belongs(p: Plan, slot: Slot, c: Chunk) {
    slot.layer < |p.layers| && c.order == slot.layer && c.name == p.layers[slot.layer].name && c.round == slot.round
  }

  /** The Master has answered for the slot, and what is queued is that answer or a later hook's chunk. */
  ghost predicate Answered(a: Sys, slot: Slot) {
    slot in a.s.queued && slot in a.log.answers && a.s.queued[slot] == Final(a.log, slot)
  }

  ghost predicate LocalsInv(p: Plan, a: Sys) {
    && (forall slot | slot in a.s.queued :: LocalOk(p, a, slot))
    && (forall slot | slot in a.log.payloads :: PayloadOk(p, a, slot))
  }

  ghost predicate LocalOk(p: Plan, a: Sys, slot: Slot)
    requires slot in a.s.queued
  {
    && slot.layer < |p.groupOf| && slot in a.log.locals
    && (TicketOf(p, slot) !in a.log.taken ==> a.s.queued[slot] == a.log.locals[slot])
  }

  ghost predicate PayloadOk(p: Plan, a: Sys, slot: Slot)
    requires slot in a.log.payloads
  {
    && slot.layer < |p.groupOf| && TicketOf(p, slot) in a.log.taken
    && slot in a.log.locals && a.log.payloads[slot] == a.log.locals[slot]
  }

  ghost predicate InStep(t: Trainer) {
    t.Waiting? || t.Complete? || t.Applying? || t.Applied?
  }

  /** Once the round is finalized, every group of a round that has not failed is queued or submitted. */
  ghost predicate CoveredInv(p: Plan, a: Sys) {
    InStep(a.trainer) && a.trainer.round !in a.s.failed ==>
      forall g: nat | g < |p.groups| ::
        Ticket(a.trainer.round, g) in a.s.order || Ticket(a.trainer.round, g) in a.s.submitted
  }

  ghost predicate CompleteInv(p: Plan, a: Sys) {
    AllReturned(p, a) && ReadFromSlots(p, a)
  }

  ghost predicate AllReturned(p: Plan, a: Sys) {
    a.trainer.Complete? || a.trainer.Applying? || a.trainer.Applied? ==>
      forall g: nat | g < |p.groups| :: Ticket(a.trainer.round, g) in a.s.returned
  }

  ghost predicate ReadFromSlots(p: Plan, a: Sys) {
    a.trainer.Applying? || a.trainer.Applied? ==> FromSlots(p, a, a.trainer.round, a.trainer.chunks)
  }

  /** One chunk per layer, each what the slot of an answered layer held in the end. */
  ghost predicate FromSlots(p: Plan, a: Sys, r: nat, chunks: seq<Chunk>) {
    && |chunks| == |p.layers|
    && (forall l: nat | l < |p.layers| :: Slot(r, l) in a.log.answers && chunks[l] == Final(a.log, Slot(r, l)))
  }

  /** One chunk per layer, each the one that the Master returned for this layer and round. */
  ghost predicate FromMaster(p: Plan, a: Sys, r: nat, chunks: seq<Chunk>) {
    && |chunks| == |p.layers|
    && (forall l: nat | l < |p.layers| :: Slot(r, l) in a.log.answers && chunks[l] == a.log.answers[Slot(r, l)])
    && (forall l: nat | l < |p.layers| :: Belongs(p, Slot(r, l), chunks[l]))
  }

  ghost predicate StepsInv(p: Plan, a: Sys) {
    && (forall i | 0 <= i < |a.log.steps| :: StepOk(p, a, a.log.steps[i]))
    && (forall i, j | 0 <= i < j < |a.log.steps| :: a.log.steps[i].round < a.log.steps[j].round)
  }

  /** Nothing can be queued for the round any more. */
  ghost predicate Over(a: Sys, r: nat) {
    r < a.s.nextRound || (a.s.active == Some(r) && a.trainer == Finishing)
  }

  ghost predicate StepOk(p: Plan, a: Sys, x: OptimizerStep) {
    && FromSlots(p, a, x.round, x.chunks)
    && Over(a, x.round)
  }

  /** A batch keeps to the limits: not too many groups, and not too many bytes unless it holds one group. */
  ghost predicate BatchInv(p: Plan, a: Sys) {
    var batch := BatchOf(a.sender);
    && |batch| <= p.maxGroups
    && (|batch| >= 2 ==> BatchBytes(p, a.log.payloads, batch) <= p.maxBytes)
    && (a.sender.Collecting? ==> a.sender.bytes == BatchBytes(p, a.log.payloads, batch))
    && (forall t | t in batch :: t.group < |p.groups| && Ready(p, a.log.payloads, t))
  }

  function BatchBytes(p: Plan, payloads: map<Slot, Chunk>, batch: seq<Ticket>): nat {
    if batch == [] then 0
    else
      var t := batch[|batch| - 1];
      BatchBytes(p, payloads, batch[..|batch| - 1]) +
      (if t.group < |p.groups| && Ready(p, payloads, t) then GroupBytes(p, payloads, t) else 0)
  }

  /** x is y with some entries left out. */
  predicate Within(x: seq<Ticket>, y: seq<Ticket>) {
    x == [] ||
    (y != [] &&
     (Within(x, y[..|y| - 1]) || (x[|x| - 1] == y[|y| - 1] && Within(x[..|x| - 1], y[..|y| - 1]))))
  }

  /** What was taken, followed by what still waits, is in the order in which it was put into the queue. */
  ghost predicate OrderInv(a: Sys) {
    Within(a.log.taken + a.s.order, a.log.enqueuings)
  }

  ghost predicate Inv(p: Plan, a: Sys) {
    PlacesInv(p, a) && ChunksInv(p, a)
  }

  /** Where rounds, hooks and groups are. */
  ghost predicate PlacesInv(p: Plan, a: Sys) {
    && RoundsInv(a) && TrainerInv(a) && QueueInv(p, a.s) && SlotsInv(p, a) && HooksInv(p, a)
    && SenderInv(p, a) && TakenInv(p, a) && FreshInv(a) && SetsInv(p, a) && SplitInv(a) && CoveredInv(p, a)
  }

  /** Which chunks are where. */
  ghost predicate ChunksInv(p: Plan, a: Sys) {
    && AnswersInv(p, a) && StoredInv(p, a) && LocalsInv(p, a) && CompleteInv(p, a) && StepsInv(p, a)
    && BatchInv(p, a) && OrderInv(a)
  }

  ghost predicate Run(p: Plan, run: seq<Sys>)
    requires PlanOk(p)
  {
    && run != [] && run[0] == Init()
    && (forall i: nat | i < |run| - 1 :: Linked(p, run, i))
  }

  /** A run in which a layer's hook fires at most once in a round. */
  ghost predicate OnceRun(p: Plan, run: seq<Sys>)
    requires PlanOk(p)
  {
    && run != [] && run[0] == Init()
    && (forall i: nat | i < |run| - 1 :: OnceLinked(p, run, i))
  }

  ghost predicate OnceLinked(p: Plan, run: seq<Sys>, i: nat)
    requires PlanOk(p) && i < |run| - 1
  {
    exists step :: NextStep(p, run[i], run[i+1], step) && (step.BeginHook? ==> step.layer !in run[i].fired)
  }

  ghost predicate Linked(p: Plan, run: seq<Sys>, i: nat)
    requires PlanOk(p) && i < |run| - 1
  {
    Next(p, run[i], run[i+1])
  }
}
