/** From one side to the other: what the prepared runtime sends for a group has the shape of the plan, and if every
    Worker's group has it, the Master's answer passes every check of the receiving side. */
module PreparedAnswers {
  import opened Wrappers
  import opened Gradients
  import opened Averaging
  import opened GroupAveraging
  import opened PreparedSpec
  import opened PreparedRuns
  import PreparedSafety
  import PreparedProperties
  import Compression
  import Extraction
  import Feedback = ErrorFeedback
  import Delivered = DeliveredAnswers
  import Rounds = KeyedRounds
  import Keyed = KeyedRuns
  import Provenance = KeyedProvenance

  /** One chunk for each layer of the group, in the group's order, about that layer and the ticket's round. */
  predicate PlanShaped(p: Plan, t: Ticket, chunks: seq<Chunk>)
    requires t.group < |p.groups|
  {
    && |chunks| == |p.groups[t.group]|
    && forall m: nat | m < |chunks| :: PreparedSpec.MemberFits(p, t, m, chunks[m])
  }

  // ---------- what is sent ----------

  /** What a chunk that is queued for a slot is required to be. */
  type Requirement = (Slot, Chunk) -> bool

  /** Every hook ends with a chunk that meets the requirement, and so does the chunk of a layer without gradient. */
  ghost predicate HooksMeet(p: Plan, run: seq<Sys>, ok: Requirement)
    requires PlanOk(p)
  {
    && (forall slot: Slot | slot.layer < |p.layers| :: ok(slot, EmptyFor(p, slot)))
    && (forall i: nat, slot, c | i < |run| - 1 && NextStep(p, run[i], run[i+1], EndHook(slot, c)) :: ok(slot, c))
  }

  ghost predicate LocalsMeet(locals: map<Slot, Chunk>, ok: Requirement) {
    forall slot | slot in locals :: ok(slot, locals[slot])
  }

  lemma FinalizedMeet(p: Plan, a: Sys, b: Sys, ok: Requirement)
    requires LocalsMeet(a.log.locals, ok) && Finalizes(p, a, b)
    requires forall slot: Slot | slot.layer < |p.layers| :: ok(slot, EmptyFor(p, slot))
    ensures LocalsMeet(b.log.locals, ok)
  {
    var r := a.s.active.value;
    var filled := Filled(p, a.s.queued, r, |p.layers|);
    FilledIs(p, a.s.queued, r, |p.layers|);
    AllEnqueuedFrame(p, a.s.(queued := filled), r, |p.groups|);
    forall slot | slot in b.log.locals ensures ok(slot, b.log.locals[slot]) {
      assert slot in filled && slot !in a.s.queued ==> filled[slot] == EmptyFor(p, slot);
    }
  }

  lemma NextMeet(p: Plan, a: Sys, b: Sys, step: Step, ok: Requirement)
    requires PlanOk(p) && NextStep(p, a, b, step) && LocalsMeet(a.log.locals, ok)
    requires forall slot: Slot | slot.layer < |p.layers| :: ok(slot, EmptyFor(p, slot))
    requires step.EndHook? ==> ok(step.slot, step.chunk)
    ensures LocalsMeet(b.log.locals, ok)
  {
    if step.Finalize? {
      FinalizedMeet(p, a, b, ok);
    } else {
      match step
      case EndHook(slot, c) =>
      case PopFirst =>
      case PopMore =>
      case StoreGroup(chunks) =>
      case StepOptimizer =>
      case _ =>
    }
  }

  lemma {:induction false} RunMeets(p: Plan, run: seq<Sys>, i: nat, ok: Requirement)
    requires PlanOk(p) && Run(p, run) && HooksMeet(p, run, ok) && i < |run|
    ensures LocalsMeet(run[i].log.locals, ok)
  {
    if i > 0 {
      RunMeets(p, run, i - 1, ok);
      assert Linked(p, run, i - 1);
      var step :| NextStep(p, run[i-1], run[i], step);
      if step.EndHook? {
        assert NextStep(p, run[i-1], run[i-1+1], EndHook(step.slot, step.chunk));
      }
      NextMeet(p, run[i-1], run[i], step, ok);
    }
  }

  /** The payload of a group that was taken. */
  function Sent(p: Plan, payloads: map<Slot, Chunk>, t: Ticket): (chunks: seq<Chunk>)
    requires t.group < |p.groups| && Ready(p, payloads, t)
    ensures |chunks| == |p.groups[t.group]|
    ensures forall m: nat | m < |chunks| :: chunks[m] == payloads[Slot(t.round, p.groups[t.group][m])]
  {
    seq(|p.groups[t.group]|, m requires 0 <= m < |p.groups[t.group]| => payloads[Slot(t.round, p.groups[t.group][m])])
  }

  /** What is sent for a layer of a taken group meets the requirement. */
  lemma SendsMeet(p: Plan, run: seq<Sys>, i: nat, t: Ticket, ok: Requirement)
    requires PlanOk(p) && Run(p, run) && HooksMeet(p, run, ok) && i < |run| && t in BatchOf(run[i].sender)
    ensures t.group < |p.groups| && Ready(p, run[i].log.payloads, t)
    ensures var chunks := Sent(p, run[i].log.payloads, t);
            forall m: nat | m < |chunks| :: ok(Slot(t.round, p.groups[t.group][m]), chunks[m])
  {
    PreparedSafety.RunInv(p, run, i);
    RunMeets(p, run, i, ok);
    var chunks := Sent(p, run[i].log.payloads, t);
    forall m: nat | m < |chunks| ensures ok(Slot(t.round, p.groups[t.group][m]), chunks[m]) {
      PreparedProperties.SendsLocalChunks(p, run, i, Slot(t.round, p.groups[t.group][m]));
    }
  }

  /** Every hook ends with a chunk about its own layer and round. */
  ghost predicate HooksBelong(p: Plan, run: seq<Sys>)
    requires PlanOk(p)
  {
    forall i: nat, slot, c | i < |run| - 1 && NextStep(p, run[i], run[i+1], EndHook(slot, c)) :: Belongs(p, slot, c)
  }

  /** Whatever the hooks do, the groups of a batch are sent in the shape of the plan. */
  lemma SendsPlanShaped(p: Plan, run: seq<Sys>, i: nat, t: Ticket)
    requires PlanOk(p) && Run(p, run) && HooksBelong(p, run) && i < |run| && t in BatchOf(run[i].sender)
    ensures t.group < |p.groups| && Ready(p, run[i].log.payloads, t)
    ensures PlanShaped(p, t, Sent(p, run[i].log.payloads, t))
  {
    var ok := (slot, c) => Belongs(p, slot, c);
    forall slot: Slot | slot.layer < |p.layers| ensures ok(slot, EmptyFor(p, slot)) {
      EmptyIsWithout(p, slot);
    }
    SendsMeet(p, run, i, t, ok);
    var chunks := Sent(p, run[i].log.payloads, t);
    forall m: nat | m < |chunks| ensures PreparedSpec.MemberFits(p, t, m, chunks[m]) {
      assert ok(Slot(t.round, p.groups[t.group][m]), chunks[m]);
    }
  }

  // ---------- what is sent can be averaged ----------

  /** The chunk is about its layer and round, of the layer's size, readable, and compressed when the round is. */
  ghost predicate Sendable(p: Plan, cfg: Compression.Config, slot: Slot, c: Chunk) {
    Belongs(p, slot, c) && Feedback.FitsRound(cfg, c, p.layers[slot.layer].numel, slot.round)
  }

  /** What the hook path makes of a gradient can be sent. */
  lemma CompressedSendable(p: Plan, cfg: Compression.Config, slot: Slot, gradient: Vec, topk: Compression.TopK,
                           sample: seq<int>, residuals: Extraction.Residuals)
    requires slot.layer < |p.layers| && |gradient| == p.layers[slot.layer].numel
    requires Compression.GoodTopK(topk) && Extraction.SampleFits(cfg, sample, |gradient|)
    ensures var c := Extraction.CompressReady(p.layers[slot.layer].name, slot.layer, gradient, cfg, topk, sample,
                                              residuals, slot.round).chunk;
            c.Some? ==> Sendable(p, cfg, slot, c.value)
  {
    var name := p.layers[slot.layer].name;
    Extraction.ReadyConserves(name, slot.layer, gradient, cfg, topk, sample, residuals, slot.round);
    if !cfg.topK || slot.round <= cfg.warmupSteps {
      Extraction.ReadyInWarmup(name, slot.layer, gradient, cfg, topk, sample, residuals, slot.round);
    } else {
      Extraction.ReadyAfterWarmup(name, slot.layer, gradient, cfg, topk, sample, residuals, slot.round);
    }
  }

  ghost predicate HooksSendable(p: Plan, cfg: Compression.Config, run: seq<Sys>)
    requires PlanOk(p)
  {
    forall i: nat, slot, c | i < |run| - 1 && NextStep(p, run[i], run[i+1], EndHook(slot, c)) :: Sendable(p, cfg, slot, c)
  }

  ghost predicate GroupSendable(p: Plan, cfg: Compression.Config, t: Ticket, chunks: seq<Chunk>)
    requires t.group < |p.groups|
  {
    && |chunks| == |p.groups[t.group]|
    && forall m: nat | m < |chunks| :: Sendable(p, cfg, Slot(t.round, p.groups[t.group][m]), chunks[m])
  }

  /** The hooks bring readable chunks: so is every group that is sent, layers without gradient included. */
  lemma SendsSendable(p: Plan, cfg: Compression.Config, run: seq<Sys>, i: nat, t: Ticket)
    requires PlanOk(p) && Run(p, run) && HooksSendable(p, cfg, run) && i < |run| && t in BatchOf(run[i].sender)
    ensures t.group < |p.groups| && Ready(p, run[i].log.payloads, t)
    ensures GroupSendable(p, cfg, t, Sent(p, run[i].log.payloads, t))
  {
    var ok := (slot, c) => Sendable(p, cfg, slot, c);
    forall slot: Slot | slot.layer < |p.layers| ensures ok(slot, EmptyFor(p, slot)) {
      EmptyIsWithout(p, slot);
    }
    SendsMeet(p, run, i, t, ok);
    var chunks := Sent(p, run[i].log.payloads, t);
    forall m: nat | m < |chunks| ensures Sendable(p, cfg, Slot(t.round, p.groups[t.group][m]), chunks[m]) {
      assert ok(Slot(t.round, p.groups[t.group][m]), chunks[m]);
    }
  }

  /** The Master averages every full round of such groups. */
  lemma SendableAnswerable(p: Plan, cfg: Compression.Config, t: Ticket, s: Submissions)
    requires t.group < |p.groups| && p.groups[t.group] != [] && s != map[]
    requires forall w | w in s :: GroupSendable(p, cfg, t, s[w].chunks)
    ensures Answerable(s)
  {
    forall v, w | v in s && w in s ensures SameParameters(s[v], s[w]) {
      SameSendable(p, cfg, t, s[v], s[w]);
    }
    forall w, m: nat | w in s && m < |s[w].chunks| ensures MemberAnswerable(s, m, s[w].chunks[m].numel) {
      MembersSendable(p, cfg, t, s, m, s[w].chunks[m].numel);
    }
  }

  lemma SameSendable(p: Plan, cfg: Compression.Config, t: Ticket, g: Group, h: Group)
    requires t.group < |p.groups| && GroupSendable(p, cfg, t, g.chunks) && GroupSendable(p, cfg, t, h.chunks)
    ensures SameParameters(g, h)
  {
    forall m: nat | m < |g.chunks| ensures SameMetadata(g.chunks[m], h.chunks[m]) {
      var slot := Slot(t.round, p.groups[t.group][m]);
      assert Sendable(p, cfg, slot, g.chunks[m]) && Sendable(p, cfg, slot, h.chunks[m]);
    }
  }

  lemma MembersSendable(p: Plan, cfg: Compression.Config, t: Ticket, s: Submissions, m: nat, numel: nat)
    requires t.group < |p.groups| && m < |p.groups[t.group]| && p.groups[t.group][m] < |p.layers|
    requires numel == p.layers[p.groups[t.group][m]].numel
    requires forall w | w in s :: GroupSendable(p, cfg, t, s[w].chunks)
    ensures MemberAnswerable(s, m, numel)
  {
    forall ws | Lists(ws, s) ensures Averageable(Members(s, ws, m), numel) {
      var chunks := Members(s, ws, m);
      forall c | c in chunks ensures Feedback.FitsRound(cfg, c, numel, t.round) {
        var i :| 0 <= i < |chunks| && chunks[i] == c;
        assert ws[i] in ws && GroupSendable(p, cfg, t, s[ws[i]].chunks);
        assert Sendable(p, cfg, Slot(t.round, p.groups[t.group][m]), c);
      }
      Feedback.FittingAverageable(cfg, chunks, numel, t.round);
    }
  }

  // ---------- what comes back ----------

  lemma {:induction false} Listed(ws: set<Worker>) returns (order: seq<Worker>)
    ensures (forall i, j | 0 <= i < j < |order| :: order[i] != order[j]) && (forall w :: w in order <==> w in ws)
    decreases |ws|
  {
    if ws == {} {
      order := [];
    } else {
      var w :| w in ws;
      var rest := Listed(ws - {w});
      order := [w] + rest;
      assert forall v :: v in order <==> v == w || v in rest;
    }
  }

  /** A member of the mean has the name, the order and the round that all Workers' members have. */
  lemma MeanFits(p: Plan, t: Ticket, s: Submissions, m: nat, c: Chunk)
    requires t.group < |p.groups| && m < |p.groups[t.group]| && s != map[] && MemberMean(s, m, c)
    requires forall w | w in s :: PlanShaped(p, t, s[w].chunks)
    ensures PreparedSpec.MemberFits(p, t, m, c)
  {
    var ws := Listed(s.Keys);
    assert Lists(ws, s);
    var chunks := Members(s, ws, m);
    var d :| d in chunks && c.name == d.name && c.order == d.order && c.round == d.round;
    var i :| 0 <= i < |chunks| && chunks[i] == d;
    assert ws[i] in ws && d == s[ws[i]].chunks[m];
    assert PreparedSpec.MemberFits(p, t, m, d);
  }

  /** The answer to groups in the shape of the plan has this shape too: the receiving side stores it exactly when its
      round is not over. */
  lemma AnswerStored(p: Plan, t: Ticket, s: Submissions, answer: Group, state: State)
    requires t.group < |p.groups| && s != map[] && GroupMean(s, answer)
    requires forall w | w in s :: PlanShaped(p, t, s[w].chunks)
    ensures PlanShaped(p, t, answer.chunks)
    ensures Stores(p, state, t, answer.chunks) <==> t.round >= state.nextRound
  {
    var w :| w in s;
    assert |answer.chunks| == |s[w].chunks|;
    forall m: nat | m < |answer.chunks| ensures PreparedSpec.MemberFits(p, t, m, answer.chunks[m]) {
      MeanFits(p, t, s, m, answer.chunks[m]);
    }
  }

  /** Every group that a Worker sent under this key has the shape of the plan. */
  ghost predicate SentShaped(p: Plan, t: Ticket, steps: seq<Keyed.Step>, k: Rounds.Key)
    requires t.group < |p.groups|
  {
    forall w, g | Provenance.SentIn(steps, w, k, g) :: PlanShaped(p, t, g.chunks)
  }

  /** In every run in which the Workers send groups in the shape of the plan, what is delivered under the group's key is
      stored by every Worker whose round is not over. */
  lemma DeliveredStored(cfg: Rounds.Config, steps: seq<Keyed.Step>, d: Keyed.Delivery, p: Plan, t: Ticket, state: State)
    requires Delivered.AveragesGroups(cfg) && cfg.workers != {} && t.group < |p.groups|
    requires Keyed.ValidRun(cfg, Keyed.INIT, steps)
    requires d in Keyed.After(cfg, Keyed.INIT, steps).deliveries && SentShaped(p, t, steps, d.key)
    ensures Stores(p, state, t, d.response.chunks) <==> t.round >= state.nextRound
  {
    var s := Delivered.DeliveredFrom(cfg, steps, d);
    forall w | w in s ensures PlanShaped(p, t, s[w].chunks) {
      assert Provenance.SentIn(steps, w, d.key, s[w]);
    }
    AnswerStored(p, t, s, d.response, state);
  }
}
