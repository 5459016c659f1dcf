/** From end to end over the dense barrier: what a Worker receives is accepted by its parameters and is the mean of what
    all Workers of the round arrived with. */
module DenseAnswers {
  import opened Gradients
  import opened GroupAveraging
  import opened DenseRounds
  import DenseProvenance
  import Delivered = DeliveredAnswers

  /** Whole gradients are averaged chunk by chunk, as the members of a group are. */
  function AsGroups(gradients: map<GroupAveraging.Worker, seq<Chunk>>): (s: Submissions)
    ensures s.Keys == gradients.Keys
  {
    map w | w in gradients :: Group(gradients[w])
  }

  ghost predicate AveragesGradients(cfg: Config) {
    forall gradients | cfg.average(gradients).Average? ::
      GroupMean(AsGroups(gradients), Group(cfg.average(gradients).chunks))
  }

  lemma ResponseApplies(s: Submissions, chunks: seq<Chunk>)
    requires GroupMean(s, Group(chunks))
    ensures forall w | w in s :: |s[w].chunks| == |chunks|
    ensures forall m: nat | m < |chunks| :: Delivered.MemberApplies(s, m, chunks[m])
  {
    forall m: nat | m < |chunks| ensures Delivered.MemberApplies(s, m, chunks[m]) {
      assert MemberMean(s, m, Group(chunks).chunks[m]);
      Delivered.MeanApplies(s, m, chunks[m]);
    }
  }

  /** In every dense-only run: behind every delivery stands one gradient from each of the expected Workers, brought by
      its own arrival, and every chunk of the response applies as their mean; all receivers of the round get this
      response. */
  lemma DeliveredIsMean(cfg: Config, steps: seq<Step>, d: Delivery)
    returns (gradients: map<GroupAveraging.Worker, seq<Chunk>>)
    requires AveragesGradients(cfg) && cfg.expected > 0
    requires ValidRun(cfg, INIT, steps) && forall step | step in steps :: DenseOnly(step)
    requires d in After(cfg, INIT, steps).deliveries
    ensures |gradients| == cfg.expected
    ensures forall w | w in gradients :: DenseProvenance.SentIn(steps, w, gradients[w])
    ensures forall w | w in gradients :: |gradients[w]| == |d.response.chunks|
    ensures forall m: nat | m < |d.response.chunks| ::
              Delivered.MemberApplies(AsGroups(gradients), m, d.response.chunks[m])
    ensures forall d2 | d2 in After(cfg, INIT, steps).deliveries && d2.ref == d.ref :: d2.response == d.response
  {
    OneAnswerPerRound(cfg, steps);
    var sys := After(cfg, INIT, steps);
    gradients := sys.heap[d.ref].gradients;
    forall w | w in gradients ensures DenseProvenance.SentIn(steps, w, gradients[w]) {
      DenseProvenance.HoldsWhatWasSent(cfg, steps, d.ref, w);
    }
    var s := AsGroups(gradients);
    ResponseApplies(s, d.response.chunks);
    forall w | w in gradients ensures |gradients[w]| == |d.response.chunks| {
      assert w in s && s[w].chunks == gradients[w];
    }
  }
}
