/** The state of the prepared runtime on one Worker and its critical sections, as functions from the old state to
    the new one. A dict of dicts (or of sets) keyed by round and then by layer (or group) is a map (or set) of pairs. */
module PreparedSpec {
  import opened Wrappers
  import opened Gradients

  datatype Layer = Layer(name: string, numel: nat)

  datatype Ticket = Ticket(round: nat, group: nat)

  datatype Slot = Slot(round: nat, layer: nat)

  /** The layers of the model, the fused groups in which they travel, the limits of a batch, and the payload size of
      a chunk. */
  datatype Plan = Plan(layers: seq<Layer>, groups: seq<seq<nat>>, groupOf: seq<nat>,
                       maxGroups: nat, maxBytes: nat, byteSize: Chunk -> nat)

  /** Every layer is in exactly one group, the one that groupOf names. */
  ghost predicate PlanOk(p: Plan) {
    && p.maxGroups > 0
    && |p.groupOf| == |p.layers|
    && (forall l | 0 <= l < |p.layers| :: p.groupOf[l] < |p.groups|)
    && (forall g, l | 0 <= g < |p.groups| && l in p.groups[g] :: l < |p.layers| && p.groupOf[l] == g)
    && (forall l | 0 <= l < |p.layers| :: l in p.groups[p.groupOf[l]])
    && (forall g, i, j | 0 <= g < |p.groups| && 0 <= i < j < |p.groups[g]| :: p.groups[g][i] != p.groups[g][j])
  }

  datatype State = State(
    nextRound: nat,
    active: Option<nat>,
    queued: map<Slot, Chunk>,
    order: seq<Ticket>,
    enqueued: set<Ticket>,
    submitted: set<Ticket>,
    inflight: set<Ticket>,
    returned: set<Ticket>,
    failed: set<nat>,
    applied: set<nat>,
    completed: seq<nat>,
    shutdown: bool)

  const INITIAL := State(1, None, map[], [], {}, {}, {}, {}, {}, {}, [], false)

  function Of(tickets: set<Ticket>, round: nat): set<Ticket> {
    set t | t in tickets && t.round == round
  }

  function Tickets(p: Plan, round: nat): set<Ticket> {
    set g: nat | g < |p.groups| :: Ticket(round, g)
  }

  // ---------- hooks ----------

  function Opened(s: State): State {
    if s.active.None? then s.(active := Some(s.nextRound)) else s
  }

  predicate Ready(p: Plan, queued: map<Slot, Chunk>, t: Ticket)
    requires t.group < |p.groups|
  {
    forall l | l in p.groups[t.group] :: Slot(t.round, l) in queued
  }

  predicate Enqueues(p: Plan, s: State, t: Ticket)
    requires t.group < |p.groups|
  {
    Ready(p, s.queued, t) && t !in s.enqueued && t !in s.submitted && t !in s.inflight && t !in s.returned
  }

  function EnqueuedIfReady(p: Plan, s: State, t: Ticket): State
    requires t.group < |p.groups|
  {
    if Enqueues(p, s, t) then s.(order := s.order + [t], enqueued := s.enqueued + {t}) else s
  }

  /** The group in which a slot travels. */
  function TicketOf(p: Plan, slot: Slot): Ticket
    requires slot.layer < |p.groupOf|
  {
    Ticket(slot.round, p.groupOf[slot.layer])
  }

  function ChunkQueued(p: Plan, s: State, slot: Slot, c: Chunk): State
    requires PlanOk(p) && slot.layer < |p.layers|
  {
    EnqueuedIfReady(p, s.(queued := s.queued[slot := c]), TicketOf(p, slot))
  }

  // ---------- finalizing ----------

  function EmptyFor(p: Plan, slot: Slot): Chunk
    requires slot.layer < |p.layers|
  {
    EmptyChunk(p.layers[slot.layer].name, slot.layer, p.layers[slot.layer].numel, slot.round)
  }

  /** The chunk names this layer and round, claims no gradient and counts as zero. */
  ghost predicate WithoutGradient(p: Plan, slot: Slot, c: Chunk)
    requires slot.layer < |p.layers|
  {
    && c.name == p.layers[slot.layer].name && c.order == slot.layer && c.round == slot.round
    && !c.hasGrad && c.encoding == Dense && c.values == [] && c.indices == [] && c.packed == []
    && Meaning(c) == Zeros(p.layers[slot.layer].numel)
  }

  lemma EmptyIsWithout(p: Plan, slot: Slot)
    requires slot.layer < |p.layers|
    ensures WithoutGradient(p, slot, EmptyFor(p, slot))
  {
    EmptyMeansZero(p.layers[slot.layer].name, slot.layer, p.layers[slot.layer].numel, slot.round);
  }

  /** Layers whose hook did not fire get an empty chunk. */
  function Filled(p: Plan, queued: map<Slot, Chunk>, round: nat, n: nat): map<Slot, Chunk>
    requires n <= |p.layers|
  {
    if n == 0 then queued
    else
      var before := Filled(p, queued, round, n - 1);
      var slot := Slot(round, n - 1);
      if slot in before then before else before[slot := EmptyFor(p, slot)]
  }

  function AllEnqueued(p: Plan, s: State, round: nat, n: nat): State
    requires n <= |p.groups|
  {
    if n == 0 then s else EnqueuedIfReady(p, AllEnqueued(p, s, round, n - 1), Ticket(round, n - 1))
  }

  function Finalized(p: Plan, s: State, round: nat): State {
    AllEnqueued(p, s.(queued := Filled(p, s.queued, round, |p.layers|)), round, |p.groups|)
  }

  // ---------- the sender ----------

  /** The head of the queue is taken; it joins the batch unless its round has failed or it is not ready. */
  function Popped(p: Plan, s: State): State
    requires s.order != [] && s.order[0].group < |p.groups|
  {
    var t := s.order[0];
    var rest := s.(order := s.order[1..], enqueued := s.enqueued - {t});
    if Taken(p, s) then rest.(submitted := s.submitted + {t}, inflight := s.inflight + {t}) else rest
  }

  predicate Taken(p: Plan, s: State)
    requires s.order != [] && s.order[0].group < |p.groups|
  {
    s.order[0].round !in s.failed && Ready(p, s.queued, s.order[0])
  }

  /** The payload size of the first n members of a group. */
  function PayloadBytes(p: Plan, queued: map<Slot, Chunk>, t: Ticket, n: nat): nat
    requires t.group < |p.groups| && n <= |p.groups[t.group]| && Ready(p, queued, t)
  {
    if n == 0 then 0
    else PayloadBytes(p, queued, t, n - 1) + p.byteSize(queued[Slot(t.round, p.groups[t.group][n-1])])
  }

  function GroupBytes(p: Plan, queued: map<Slot, Chunk>, t: Ticket): nat
    requires t.group < |p.groups| && Ready(p, queued, t)
  {
    PayloadBytes(p, queued, t, |p.groups[t.group]|)
  }

  /** The members of a returned group, checked one by one. */
  predicate MemberFits(p: Plan, t: Ticket, m: nat, c: Chunk)
    requires t.group < |p.groups| && m < |p.groups[t.group]|
  {
    var l := p.groups[t.group][m];
    c.order == l && l < |p.layers| && c.name == p.layers[l].name && c.round == t.round
  }

  /** How many leading members pass the checks. */
  function Fitting(p: Plan, t: Ticket, chunks: seq<Chunk>, n: nat): (k: nat)
    requires t.group < |p.groups| && n <= |chunks| == |p.groups[t.group]|
    ensures n <= k <= |chunks|
    ensures forall m | n <= m < k :: MemberFits(p, t, m, chunks[m])
    ensures k < |chunks| ==> !MemberFits(p, t, k, chunks[k])
    decreases |chunks| - n
  {
    if n < |chunks| && MemberFits(p, t, n, chunks[n]) then Fitting(p, t, chunks, n + 1) else n
  }

  /** The first n members of the group overwrite what was queued. */
  function Overwritten(p: Plan, queued: map<Slot, Chunk>, t: Ticket, chunks: seq<Chunk>, n: nat): map<Slot, Chunk>
    requires t.group < |p.groups| && n <= |chunks| == |p.groups[t.group]|
  {
    if n == 0 then queued
    else Overwritten(p, queued, t, chunks, n - 1)[Slot(t.round, p.groups[t.group][n-1]) := chunks[n-1]]
  }

  /** A response for group t: refused without a trace when it has the wrong size or its round is over; when a
      member does not fit, those before it stay stored. */
  predicate Refused(p: Plan, s: State, t: Ticket, chunks: seq<Chunk>)
    requires t.group < |p.groups|
  {
    |chunks| != |p.groups[t.group]| || t.round < s.nextRound
  }

  predicate Stores(p: Plan, s: State, t: Ticket, chunks: seq<Chunk>)
    requires t.group < |p.groups|
  {
    !Refused(p, s, t, chunks) && Fitting(p, t, chunks, 0) == |chunks|
  }

  function Stored(p: Plan, s: State, t: Ticket, chunks: seq<Chunk>): State
    requires t.group < |p.groups|
  {
    if Refused(p, s, t, chunks) then s
    else
      var n := Fitting(p, t, chunks, 0);
      var partly := s.(inflight := s.inflight - {t}, queued := Overwritten(p, s.queued, t, chunks, n));
      if n == |chunks| then partly.(returned := s.returned + {t}) else partly
  }

  // ---------- failing and finishing ----------

  /** The outgoing queue without the groups of one round. */
  function Purged(order: seq<Ticket>, round: nat): (kept: seq<Ticket>)
    ensures forall t :: t in kept <==> t in order && t.round != round
  {
    if order == [] then []
    else
      var last := |order| - 1;
      assert order == order[..last] + [order[last]];
      if order[last].round != round then Purged(order[..last], round) + [order[last]] else Purged(order[..last], round)
  }

  function RoundFailed(s: State, round: nat): State {
    s.(failed := s.failed + {round},
       submitted := s.submitted - Of(s.submitted, round),
       inflight := s.inflight - Of(s.inflight, round),
       order := Purged(s.order, round),
       enqueued := s.enqueued - Of(s.enqueued, round))
  }

  function BatchFailed(s: State, batch: seq<Ticket>, round: nat): State {
    RoundFailed(s.(inflight := s.inflight - (set t | t in batch)), round)
  }

  function MarkedApplied(p: Plan, s: State, round: nat): State {
    s.(returned := s.returned - Of(s.returned, round) + Tickets(p, round), applied := s.applied + {round})
  }

  function Without(queued: map<Slot, Chunk>, round: nat): map<Slot, Chunk> {
    map slot | slot in queued && slot.round != round :: queued[slot]
  }

  function Finished(s: State): State {
    match s.active
    case None => s
    case Some(round) =>
      s.(completed := s.completed + [round],
         nextRound := round + 1,
         active := None,
         queued := Without(s.queued, round),
         submitted := s.submitted - Of(s.submitted, round),
         inflight := s.inflight - Of(s.inflight, round),
         returned := s.returned - Of(s.returned, round),
         failed := s.failed - {round},
         applied := s.applied - {round},
         order := Purged(s.order, round),
         enqueued := s.enqueued - Of(s.enqueued, round))
  }

  function ShutDown(s: State): State {
    var stopped := s.(shutdown := true);
    match s.active
    case None => stopped
    case Some(round) => RoundFailed(stopped, round)
  }

  /** The chunks of the round in the order of the layers. */
  function Ordered(p: Plan, queued: map<Slot, Chunk>, round: nat): (chunks: seq<Chunk>)
    requires forall l: nat | l < |p.layers| :: Slot(round, l) in queued
    ensures |chunks| == |p.layers|
    ensures forall l: nat | l < |p.layers| :: chunks[l] == queued[Slot(round, l)]
  {
    seq(|p.layers|, l requires 0 <= l < |p.layers| => queued[Slot(round, l)])
  }

  // ---------- what the recursive updates do ----------

  lemma {:induction false} AllEnqueuedFrame(p: Plan, s: State, round: nat, n: nat)
    requires n <= |p.groups|
    ensures var e := AllEnqueued(p, s, round, n);
            s.order <= e.order && e == s.(order := e.order, enqueued := e.enqueued)
  {
    if n > 0 {
      AllEnqueuedFrame(p, s, round, n - 1);
    }
  }

  lemma {:induction false} FilledIs(p: Plan, queued: map<Slot, Chunk>, round: nat, n: nat)
    requires n <= |p.layers|
    ensures FilledFrom(p, queued, Filled(p, queued, round, n), round, n)
  {
    if n > 0 {
      FilledIs(p, queued, round, n - 1);
      FilledNext(p, queued, Filled(p, queued, round, n - 1), round, n - 1);
    }
  }

  /** What was queued stays, the first n layers have a chunk, and the chunks that were added are empty. */
  ghost predicate FilledFrom(p: Plan, queued: map<Slot, Chunk>, f: map<Slot, Chunk>, round: nat, n: nat) {
    && (forall slot | slot in queued :: slot in f && f[slot] == queued[slot])
    && (forall slot | slot in f && slot !in queued ::
          slot.round == round && slot.layer < n && slot.layer < |p.layers| && f[slot] == EmptyFor(p, slot))
    && (forall l: nat | l < n :: Slot(round, l) in f)
  }

  lemma FilledNext(p: Plan, queued: map<Slot, Chunk>, f: map<Slot, Chunk>, round: nat, n: nat)
    requires n < |p.layers| && FilledFrom(p, queued, f, round, n)
    ensures var slot := Slot(round, n);
            FilledFrom(p, queued, if slot in f then f else f[slot := EmptyFor(p, slot)], round, n + 1)
  {
  }

  /** The slots of these members hold these chunks, and the others are as before. */
  ghost predicate Replaced(queued: map<Slot, Chunk>, o: map<Slot, Chunk>, round: nat, members: seq<nat>, chunks: seq<Chunk>)
    requires |members| <= |chunks|
  {
    && (forall slot :: slot in o <==> slot in queued || (slot.round == round && slot.layer in members))
    && (forall slot | slot in queued && !(slot.round == round && slot.layer in members) :: o[slot] == queued[slot])
    && (forall m | 0 <= m < |members| :: o[Slot(round, members[m])] == chunks[m])
  }

  lemma ReplacedMore(queued: map<Slot, Chunk>, o: map<Slot, Chunk>, round: nat, members: seq<nat>, l: nat, chunks: seq<Chunk>)
    requires |members| < |chunks| && l !in members && Replaced(queued, o, round, members, chunks)
    ensures Replaced(queued, o[Slot(round, l) := chunks[|members|]], round, members + [l], chunks)
  {
    var after := o[Slot(round, l) := chunks[|members|]];
    assert forall k: nat :: k in members + [l] <==> k in members || k == l;
    forall m | 0 <= m < |members| ensures after[Slot(round, members[m])] == chunks[m] {
      assert members[m] in members;
    }
  }

  lemma {:induction false} OverwrittenReplaces(p: Plan, queued: map<Slot, Chunk>, t: Ticket, chunks: seq<Chunk>, n: nat)
    requires PlanOk(p) && t.group < |p.groups| && n <= |chunks| == |p.groups[t.group]|
    ensures Replaced(queued, Overwritten(p, queued, t, chunks, n), t.round, p.groups[t.group][..n], chunks)
  {
    if n > 0 {
      var members := p.groups[t.group];
      OverwrittenReplaces(p, queued, t, chunks, n - 1);
      NewMember(p, t.group, n - 1);
      ReplacedMore(queued, Overwritten(p, queued, t, chunks, n - 1), t.round, members[..n-1], members[n-1], chunks);
    }
  }

  lemma NewMember(p: Plan, g: nat, n: nat)
    requires PlanOk(p) && g < |p.groups| && n < |p.groups[g]|
    ensures p.groups[g][n] !in p.groups[g][..n] && p.groups[g][..n+1] == p.groups[g][..n] + [p.groups[g][n]]
  {
  }

  /** The slots of the members of group t, and nothing else, are overwritten. */
  lemma OverwrittenIs(p: Plan, queued: map<Slot, Chunk>, t: Ticket, chunks: seq<Chunk>, n: nat)
    requires PlanOk(p) && t.group < |p.groups| && n <= |chunks| == |p.groups[t.group]|
    ensures var o := Overwritten(p, queued, t, chunks, n);
            && (forall slot :: slot in o <==> slot in queued || (slot.round == t.round && slot.layer in p.groups[t.group][..n]))
            && (forall slot | slot in queued && !(slot.round == t.round && slot.layer in p.groups[t.group][..n]) ::
                  o[slot] == queued[slot])
            && (forall m | 0 <= m < n :: o[Slot(t.round, p.groups[t.group][m])] == chunks[m])
  {
    OverwrittenReplaces(p, queued, t, chunks, n);
    assert forall m | 0 <= m < n :: p.groups[t.group][..n][m] == p.groups[t.group][m];
  }

  /** A response of the right size whose round is not over: the members before the first bad one are stored, and
      nothing else is; the group has returned exactly when there is no bad one. */
  lemma StoredIs(p: Plan, s: State, t: Ticket, chunks: seq<Chunk>, n: nat)
    requires PlanOk(p) && t.group < |p.groups| && n <= |chunks| == |p.groups[t.group]| && t.round >= s.nextRound
    requires (forall m: nat | m < n :: MemberFits(p, t, m, chunks[m])) && (n < |chunks| ==> !MemberFits(p, t, n, chunks[n]))
    ensures var after := Stored(p, s, t, chunks);
            && Replaced(s.queued, after.queued, t.round, p.groups[t.group][..n], chunks)
            && after == s.(queued := after.queued, inflight := s.inflight - {t},
                           returned := if n == |chunks| then s.returned + {t} else s.returned)
  {
    var k := Fitting(p, t, chunks, 0);
    assert k == n;
    OverwrittenReplaces(p, s.queued, t, chunks, n);
  }
}
