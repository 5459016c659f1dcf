/** Error feedback from end to end: in a job whose Workers send their compressed gradients over the keyed barrier, what
    a Worker is handed, round by round, makes up for the residuals. */
module DeliveredFeedback {
  import opened Wrappers
  import opened Gradients
  import opened Averaging
  import opened Compression
  import opened GroupAveraging
  import opened Applying
  import opened ErrorFeedback
  import Delivered = DeliveredAnswers
  import Rounds = KeyedRounds
  import Runs = KeyedRuns
  import Provenance = KeyedProvenance

  /** The Workers of the job, numbered. */
  ghost predicate Numbers(names: seq<Worker>, workers: set<Worker>) {
    && (forall i, j | 0 <= i < j < |names| :: names[i] != names[j])
    && (forall w :: w in names <==> w in workers)
  }

  /** Member m of what Worker w sends for this id in round r + 1 is its chunk for parameter j. */
  ghost predicate SendsChunks(job: Job, names: seq<Worker>, steps: seq<Runs.Step>, id: string, m: nat, j: nat)
    requires JobOk(job) && |names| == job.workers && j < |job.s.params|
  {
    forall r: nat, w: nat, g | r < |job.rounds| && w < job.workers ::
      Provenance.SentIn(steps, names[w], Rounds.Key(id, r + 1), g) ==> Carries(g, m, Sent(job, r, j)[w])
  }

  predicate Carries(g: Group, m: nat, c: Chunk) {
    m < |g.chunks| && g.chunks[m] == c
  }

  /** The job, its Workers and a run of the keyed barrier in which they send for parameter j. */
  ghost predicate Feeds(cfg: Rounds.Config, job: Job, names: seq<Worker>, steps: seq<Runs.Step>, id: string, m: nat,
                        j: nat)
  {
    && Delivered.AveragesGroups(cfg) && Runs.ValidRun(cfg, Runs.INIT, steps)
    && JobOk(job) && |names| == job.workers && Numbers(names, cfg.workers) && j < |job.s.params|
    && SendsChunks(job, names, steps, id, m, j)
  }

  /** What the receiver of member m has at position i: zero if it was told that there is no gradient. */
  function ReceivedAt(g: Group, m: nat, numel: nat, i: nat): real
    requires m < |g.chunks| && Accepts(g.chunks[m].name, numel, g.chunks[m]) && i < numel
  {
    match GradientOf(g.chunks[m])
    case None => 0.0
    case Some(v) => v[i]
  }

  lemma {:induction false} NoGradients(chunks: seq<Chunk>, numel: nat, i: nat)
    requires AllDecodable(chunks, numel) && i < numel && forall c | c in chunks :: !c.hasGrad
    ensures SumAt(chunks, numel, i) == 0.0
    decreases |chunks|
  {
    if chunks != [] {
      var last := |chunks| - 1;
      assert chunks[last] in chunks;
      NoGradients(chunks[..last], numel, i);
    }
  }

  lemma MeanAt(chunks: seq<Chunk>, numel: nat, i: nat)
    requires chunks != [] && AllDecodable(chunks, numel) && i < numel
    ensures match MeanGradient(chunks, numel)
            case None => Mean(chunks, numel)[i] == 0.0
            case Some(v) => v[i] == Mean(chunks, numel)[i]
  {
    if MeanGradient(chunks, numel).None? {
      NoGradients(chunks, numel, i);
    }
  }

  /** The members that were averaged are the chunks of the job. */
  lemma MembersSent(job: Job, names: seq<Worker>, r: nat, m: nat, j: nat, s: Submissions)
    requires JobOk(job) && r < |job.rounds| && j < |job.s.params| && |names| == job.workers && Lists(names, s)
    requires forall w: nat | w < job.workers :: Carries(s[names[w]], m, Sent(job, r, j)[w])
    ensures forall w | w in names :: w in s && m < |s[w].chunks|
    ensures Members(s, names, m) == Sent(job, r, j)
  {
    forall w | w in names ensures w in s && m < |s[w].chunks| {
      var i :| 0 <= i < |names| && names[i] == w;
    }
    assert |Members(s, names, m)| == |Sent(job, r, j)|;
  }

  lemma SubmissionsSent(cfg: Rounds.Config, job: Job, names: seq<Worker>, steps: seq<Runs.Step>, id: string, m: nat,
                        j: nat, r: nat, s: Submissions)
    requires JobOk(job) && |names| == job.workers && j < |job.s.params| && r < |job.rounds|
    requires Numbers(names, cfg.workers) && SendsChunks(job, names, steps, id, m, j)
    requires Delivered.SentUnder(cfg, steps, Rounds.Key(id, r + 1), s)
    ensures Lists(names, s)
    ensures forall w: nat | w < job.workers :: Carries(s[names[w]], m, Sent(job, r, j)[w])
  {
    forall w: nat | w < job.workers
      ensures names[w] in s && Carries(s[names[w]], m, Sent(job, r, j)[w])
    {
      assert names[w] in names && names[w] in s;
      assert Provenance.SentIn(steps, names[w], Rounds.Key(id, r + 1), s[names[w]]);
    }
  }

  /** A delivered response stands for the answer that the job's feedback is computed with. */
  lemma DeliveredAnswer(cfg: Rounds.Config, job: Job, names: seq<Worker>, steps: seq<Runs.Step>, id: string, m: nat,
                        j: nat, i: nat, r: nat, d: Runs.Delivery)
    requires Feeds(cfg, job, names, steps, id, m, j) && r < |job.rounds| && Within(job, j, i)
    requires d in Runs.After(cfg, Runs.INIT, steps).deliveries && d.key == Rounds.Key(id, r + 1)
    ensures m < |d.response.chunks| && Accepts(d.response.chunks[m].name, job.s.params[j].numel, d.response.chunks[m])
    ensures ReceivedAt(d.response, m, job.s.params[j].numel, i) == Answer(job, r, j)[i]
  {
    var s := Delivered.DeliveredFrom(cfg, steps, d);
    SubmissionsSent(cfg, job, names, steps, id, m, j, r, s);
    MembersSent(job, names, r, m, j, s);
    MemberIsAnswer(job, names, r, m, j, i, s, d.response);
  }

  lemma MemberIsAnswer(job: Job, names: seq<Worker>, r: nat, m: nat, j: nat, i: nat, s: Submissions, answer: Group)
    requires JobOk(job) && r < |job.rounds| && Within(job, j, i) && |names| == job.workers && Lists(names, s)
    requires GroupMean(s, answer) && (forall w | w in names :: w in s && m < |s[w].chunks|)
    requires Members(s, names, m) == Sent(job, r, j)
    ensures m < |answer.chunks| && Accepts(answer.chunks[m].name, job.s.params[j].numel, answer.chunks[m])
    ensures ReceivedAt(answer, m, job.s.params[j].numel, i) == Answer(job, r, j)[i]
  {
    assert names[0] in names;
    var c := answer.chunks[m];
    MemberAccepted(s, names, m, c);
    SentFits(job, r, j, 0);
    assert SameMetadata(s[names[0]].chunks[m], c) && Members(s, names, m)[0] == s[names[0]].chunks[m];
    SentAverageable(job, r, j);
    MeanAt(Sent(job, r, j), c.numel, i);
  }

  /** What is handed out in a round without compression is the mean of the local gradients, exactly. */
  lemma DeliveredInWarmup(cfg: Rounds.Config, job: Job, names: seq<Worker>, steps: seq<Runs.Step>, id: string, m: nat,
                          j: nat, i: nat, r: nat, d: Runs.Delivery)
    requires Feeds(cfg, job, names, steps, id, m, j) && r < |job.rounds| && Within(job, j, i) && InWarmup(job, r)
    requires d in Runs.After(cfg, Runs.INIT, steps).deliveries && d.key == Rounds.Key(id, r + 1)
    ensures m < |d.response.chunks| && Accepts(d.response.chunks[m].name, job.s.params[j].numel, d.response.chunks[m])
    ensures Times(job.workers, ReceivedAt(d.response, m, job.s.params[j].numel, i)) == Locals(job, j, i)[r]
  {
    DeliveredAnswer(cfg, job, names, steps, id, m, j, i, r, d);
    WarmupMean(job, r, j, i);
  }

  /** One delivery for each of the first rounds. */
  ghost predicate DeliveredEach(cfg: Rounds.Config, steps: seq<Runs.Step>, id: string, ds: seq<Runs.Delivery>)
    requires Runs.ValidRun(cfg, Runs.INIT, steps)
  {
    forall r: nat | r < |ds| ::
      ds[r] in Runs.After(cfg, Runs.INIT, steps).deliveries && ds[r].key == Rounds.Key(id, r + 1)
  }

  lemma {:induction false} SameSum(a: seq<real>, b: seq<real>, n: nat)
    requires n <= |a| && n <= |b| && forall k | 0 <= k < n :: a[k] == b[k]
    ensures SumTo(a, n) == SumTo(b, n)
  {
    if n > 0 {
      SameSum(a, b, n - 1);
    }
  }

  /** In every run of the keyed barrier in which the Workers send what their hooks produce: Workers times the sum of
      what was handed out for a position, one delivery per round, to whichever Worker, plus all residuals after the
      last of these rounds, is the sum of all local gradients. */
  lemma DeliveredConserves(cfg: Rounds.Config, job: Job, names: seq<Worker>, steps: seq<Runs.Step>, id: string, m: nat,
                           j: nat, i: nat, ds: seq<Runs.Delivery>)
    returns (received: seq<real>)
    requires Feeds(cfg, job, names, steps, id, m, j) && Within(job, j, i)
    requires |ds| <= |job.rounds| && DeliveredEach(cfg, steps, id, ds)
    ensures |received| == |ds|
    ensures forall r: nat | r < |ds| ::
              && m < |ds[r].response.chunks|
              && Accepts(ds[r].response.chunks[m].name, job.s.params[j].numel, ds[r].response.chunks[m])
              && received[r] == ReceivedAt(ds[r].response, m, job.s.params[j].numel, i)
    ensures Times(job.workers, SumTo(received, |ds|)) + Keeps(job, j, i)[|ds|] == SumTo(Locals(job, j, i), |ds|)
  {
    received := Answers(job, j, i)[..|ds|];
    forall r: nat | r < |ds|
      ensures m < |ds[r].response.chunks|
      ensures Accepts(ds[r].response.chunks[m].name, job.s.params[j].numel, ds[r].response.chunks[m])
      ensures received[r] == ReceivedAt(ds[r].response, m, job.s.params[j].numel, i)
    {
      DeliveredAnswer(cfg, job, names, steps, id, m, j, i, r, ds[r]);
    }
    SameSum(received, Answers(job, j, i), |ds|);
    SystemConserves(job, |ds|, j, i);
  }
}
