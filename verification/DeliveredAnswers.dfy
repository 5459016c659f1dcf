/** From end to end over the keyed barrier: what a Worker receives is accepted by its parameters and is the mean of what
    all Workers sent under that key. */
module DeliveredAnswers {
  import opened Gradients
  import opened Averaging
  import opened GroupAveraging
  import opened Applying
  import Rounds = KeyedRounds
  import Runs = KeyedRuns
  import Harmless = KeyedHarmless
  import Provenance = KeyedProvenance

  /** The job averages its rounds as AverageGroup does. */
  ghost predicate AveragesGroups(cfg: Rounds.Config) {
    forall s: Submissions | cfg.average(s).Average? :: GroupMean(s, cfg.average(s).response)
  }

  /** These submissions are one from each assigned Worker, and each was sent by its Worker under this key. */
  ghost predicate SentUnder(cfg: Rounds.Config, steps: seq<Runs.Step>, k: Rounds.Key, s: Submissions) {
    && s.Keys == cfg.workers
    && (forall w | w in s :: Provenance.SentIn(steps, w, k, s[w]))
  }

  /** Member m of an answer is accepted by the parameter it names and becomes the mean of the Workers' members, in
      whatever order they are listed; only a dense member without elements is refused. */
  ghost predicate MemberApplies(s: Submissions, m: nat, c: Chunk) {
    forall ws | Lists(ws, s) ::
      && (forall w | w in ws :: m < |s[w].chunks|)
      && var chunks := Members(s, ws, m);
         && chunks != [] && AllDecodable(chunks, c.numel)
         && (Accepts(c.name, c.numel, c) <==> !EmptyDense(chunks, c.numel))
         && (Accepts(c.name, c.numel, c) ==> GradientOf(c) == MeanGradient(chunks, c.numel))
  }

  lemma MeanApplies(s: Submissions, m: nat, c: Chunk)
    requires MemberMean(s, m, c)
    ensures MemberApplies(s, m, c)
  {
    forall ws | Lists(ws, s)
      ensures (forall w | w in ws :: m < |s[w].chunks|)
      ensures var chunks := Members(s, ws, m);
              && chunks != [] && AllDecodable(chunks, c.numel)
              && (Accepts(c.name, c.numel, c) <==> !EmptyDense(chunks, c.numel))
              && (Accepts(c.name, c.numel, c) ==> GradientOf(c) == MeanGradient(chunks, c.numel))
    {
      MemberAccepted(s, ws, m, c);
    }
  }

  /** In every run: behind every delivery stands one submission from each Worker, sent under that key, and the response
      is their average. */
  lemma DeliveredFrom(cfg: Rounds.Config, steps: seq<Runs.Step>, d: Runs.Delivery) returns (s: Submissions)
    requires AveragesGroups(cfg) && Runs.ValidRun(cfg, Runs.INIT, steps)
    requires d in Runs.After(cfg, Runs.INIT, steps).deliveries
    ensures SentUnder(cfg, steps, d.key, s)
    ensures GroupMean(s, d.response)
  {
    Runs.RunSafe(cfg, Runs.INIT, steps);
    var sys := Runs.After(cfg, Runs.INIT, steps);
    assert Runs.DeliverySafe(cfg, sys, d);
    var a :| a in sys.averagings && a.key == d.key && cfg.average(a.submissions) == Rounds.Average(d.response);
    assert Runs.AveragingSafe(cfg, a);
    s := a.submissions;
    forall w | w in s ensures Provenance.SentIn(steps, w, d.key, s[w]) {
      Provenance.AveragesWhatWasSent(cfg, steps, a, w);
    }
  }

  /** In every run: every member of a response applies as the mean of these submissions. If the batches are harmless,
      all receivers of the key get the same response. */
  lemma DeliveredIsMean(cfg: Rounds.Config, steps: seq<Runs.Step>, d: Runs.Delivery) returns (s: Submissions)
    requires AveragesGroups(cfg) && Runs.ValidRun(cfg, Runs.INIT, steps)
    requires d in Runs.After(cfg, Runs.INIT, steps).deliveries
    ensures SentUnder(cfg, steps, d.key, s)
    ensures forall w | w in s :: |s[w].chunks| == |d.response.chunks|
    ensures forall m: nat | m < |d.response.chunks| :: MemberApplies(s, m, d.response.chunks[m])
    ensures Harmless.HarmlessRun(cfg, Runs.INIT, steps) ==>
              forall d2 | d2 in Runs.After(cfg, Runs.INIT, steps).deliveries && d2.key == d.key ::
                d2.response == d.response
  {
    s := DeliveredFrom(cfg, steps, d);
    forall m: nat | m < |d.response.chunks| ensures MemberApplies(s, m, d.response.chunks[m]) {
      MeanApplies(s, m, d.response.chunks[m]);
    }
    if Harmless.HarmlessRun(cfg, Runs.INIT, steps) {
      Harmless.HarmlessOnce(cfg, steps);
    }
  }
}
