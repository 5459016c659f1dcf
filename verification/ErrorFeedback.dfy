/** Error feedback across the whole job: Workers compress their gradients as the hooks fire, the Master averages,
    and what was not sent is added to the next gradient. Arithmetic is exact; the payload cast is left out. */
module ErrorFeedback {
  import opened Gradients
  import opened Indices
  import opened Compression
  import opened Extraction
  import opened Averaging

  datatype Param = Param(name: string, numel: nat)

  /** What all Workers of a job share. */
  datatype Setup = Setup(params: seq<Param>, cfg: Config)

  /** One firing of a parameter's backward hook, with the sample that its selection draws and the answers that
      `topk` gives it. */
  datatype Hook = Hook(order: nat, gradient: Vec, sample: seq<int>, topk: TopK)

  ghost predicate SetupOk(s: Setup) {
    forall i, j | 0 <= i < j < |s.params| :: s.params[i].name != s.params[j].name
  }

  /** On a compressed tensor of more than 2^32 elements packing may raise an error, which ends the job. */
  ghost predicate HookOk(s: Setup, h: Hook) {
    && h.order < |s.params| && |h.gradient| == s.params[h.order].numel
    && GoodTopK(h.topk) && SampleFits(s.cfg, h.sample, |h.gradient|)
    && (s.cfg.topK ==> |h.gradient| <= LIMIT)
  }

  /** Hooks fire in any order, at most once per parameter and round; some may not fire at all. */
  ghost predicate HooksOk(s: Setup, hooks: seq<Hook>) {
    && (forall n | 0 <= n < |hooks| :: HookOk(s, hooks[n]))
    && (forall m, n | 0 <= m < n < |hooks| :: hooks[m].order != hooks[n].order)
  }

  // ---------- one Worker, one round ----------

  datatype Outcome = Outcome(chunks: map<nat, Chunk>, residuals: Residuals)

  ghost function RunHooks(s: Setup, hooks: seq<Hook>, n: nat, round: nat, residuals: Residuals): Outcome
    requires SetupOk(s) && HooksOk(s, hooks) && n <= |hooks|
  {
    if n == 0 then Outcome(map[], residuals)
    else
      var before := RunHooks(s, hooks, n - 1, round, residuals);
      var h := hooks[n-1];
      assert HookOk(s, h);
      var c := CompressReady(s.params[h.order].name, h.order, h.gradient, s.cfg, h.topk, h.sample, before.residuals, round);
      ReadyConserves(s.params[h.order].name, h.order, h.gradient, s.cfg, h.topk, h.sample, before.residuals, round);
      Outcome(before.chunks[h.order := c.chunk.value], c.residuals)
  }

  /** What finalizing the round sends for parameter j: its chunk, or an empty one if its hook never fired. */
  ghost function SentChunk(s: Setup, chunks: map<nat, Chunk>, j: nat, round: nat): Chunk
    requires j < |s.params|
  {
    if j in chunks then chunks[j] else EmptyChunk(s.params[j].name, j, s.params[j].numel, round)
  }

  /** The local gradient of parameter j; zero if its hook did not fire. */
  ghost function LocalGradient(s: Setup, hooks: seq<Hook>, n: nat, j: nat): (v: Vec)
    requires HooksOk(s, hooks) && n <= |hooks| && j < |s.params|
    ensures |v| == s.params[j].numel
  {
    if n == 0 then Zeros(s.params[j].numel)
    else
      assert HookOk(s, hooks[n-1]);
      if hooks[n-1].order == j then hooks[n-1].gradient else LocalGradient(s, hooks, n - 1, j)
  }

  ghost predicate Fired(hooks: seq<Hook>, n: nat, j: nat)
    requires n <= |hooks|
  {
    exists m: nat | m < n :: hooks[m].order == j
  }

  /** The chunk of parameter j is one the Master can average with the other Workers' chunks of that round. */
  ghost predicate FitsRound(cfg: Config, c: Chunk, numel: nat, round: nat) {
    && c.numel == numel
    && (c.hasGrad ==> Decodable(c) && c.indices == [])
    && (c.encoding != Dense ==> Compresses(cfg, round))
    && (c.hasGrad && Compresses(cfg, round) ==> c.encoding == TopK)
  }

  lemma FittingAverageable(cfg: Config, chunks: seq<Chunk>, numel: nat, round: nat)
    requires forall c | c in chunks :: FitsRound(cfg, c, numel, round)
    ensures AllDecodable(chunks, numel) && Averageable(chunks, numel)
  {
    PackedFits(chunks);
  }

  ghost predicate Conserved(s: Setup, hooks: seq<Hook>, n: nat, round: nat, before: Residuals, o: Outcome, j: nat)
    requires HooksOk(s, hooks) && n <= |hooks| && j < |s.params|
  {
    var numel := s.params[j].numel;
    var c := SentChunk(s, o.chunks, j, round);
    && FitsRound(s.cfg, c, numel, round)
    && Plus(Meaning(c), Prior(o.residuals, s.params[j].name, numel))
         == Plus(LocalGradient(s, hooks, n, j), Prior(before, s.params[j].name, numel))
  }

  lemma {:induction false} NotFiredYet(s: Setup, hooks: seq<Hook>, n: nat, round: nat, before: Residuals, j: nat)
    requires SetupOk(s) && HooksOk(s, hooks) && n <= |hooks| && j < |s.params| && !Fired(hooks, n, j)
    ensures var o := RunHooks(s, hooks, n, round, before);
            && j !in o.chunks
            && Prior(o.residuals, s.params[j].name, s.params[j].numel) == Prior(before, s.params[j].name, s.params[j].numel)
            && LocalGradient(s, hooks, n, j) == Zeros(s.params[j].numel)
  {
    if n > 0 {
      var h := hooks[n-1];
      assert HookOk(s, h) && h.order != j;
      NotFiredYet(s, hooks, n - 1, round, before, j);
      ReadyConserves(s.params[h.order].name, h.order, h.gradient, s.cfg, h.topk, h.sample,
                     RunHooks(s, hooks, n - 1, round, before).residuals, round);
      assert s.params[h.order].name != s.params[j].name;
    }
  }

  lemma JustFired(s: Setup, hooks: seq<Hook>, n: nat, round: nat, before: Residuals)
    requires SetupOk(s) && HooksOk(s, hooks) && 0 < n <= |hooks|
    ensures hooks[n-1].order < |s.params|
    ensures Conserved(s, hooks, n, round, before, RunHooks(s, hooks, n, round, before), hooks[n-1].order)
  {
    var h := hooks[n-1];
    assert HookOk(s, h);
    NotFiredYet(s, hooks, n - 1, round, before, h.order);
    ReadyConserves(s.params[h.order].name, h.order, h.gradient, s.cfg, h.topk, h.sample,
                   RunHooks(s, hooks, n - 1, round, before).residuals, round);
  }

  lemma OtherFired(s: Setup, hooks: seq<Hook>, n: nat, round: nat, before: Residuals, j: nat)
    requires SetupOk(s) && HooksOk(s, hooks) && 0 < n <= |hooks| && j < |s.params| && hooks[n-1].order != j
    requires Conserved(s, hooks, n - 1, round, before, RunHooks(s, hooks, n - 1, round, before), j)
    ensures Conserved(s, hooks, n, round, before, RunHooks(s, hooks, n, round, before), j)
  {
    var h := hooks[n-1];
    assert HookOk(s, h);
    var o := RunHooks(s, hooks, n - 1, round, before);
    ReadyConserves(s.params[h.order].name, h.order, h.gradient, s.cfg, h.topk, h.sample, o.residuals, round);
    assert s.params[h.order].name != s.params[j].name;
    var after := RunHooks(s, hooks, n, round, before);
    assert SentChunk(s, after.chunks, j, round) == SentChunk(s, o.chunks, j, round);
    assert Prior(after.residuals, s.params[j].name, s.params[j].numel) == Prior(o.residuals, s.params[j].name, s.params[j].numel);
  }

  lemma NoHookYet(s: Setup, hooks: seq<Hook>, n: nat, round: nat, before: Residuals, j: nat)
    requires SetupOk(s) && HooksOk(s, hooks) && n == 0 && j < |s.params|
    ensures Conserved(s, hooks, n, round, before, RunHooks(s, hooks, n, round, before), j)
  {
  }

  /** One Worker, one round, any order of hooks: sent plus kept is the local gradient plus what was kept before. */
  lemma {:induction false} HooksConserve(s: Setup, hooks: seq<Hook>, n: nat, round: nat, before: Residuals, j: nat)
    requires SetupOk(s) && HooksOk(s, hooks) && n <= |hooks| && j < |s.params|
    ensures Conserved(s, hooks, n, round, before, RunHooks(s, hooks, n, round, before), j)
  {
    if n == 0 {
      NoHookYet(s, hooks, n, round, before, j);
    } else if hooks[n-1].order == j {
      JustFired(s, hooks, n, round, before);
    } else {
      HooksConserve(s, hooks, n - 1, round, before, j);
      OtherFired(s, hooks, n, round, before, j);
    }
  }

  // ---------- all Workers, any number of rounds ----------

  /** rounds[r][w] are the hooks that fire on Worker w in round r + 1. */
  type Rounds = seq<seq<seq<Hook>>>

  ghost predicate RoundsOk(s: Setup, workers: nat, rounds: Rounds) {
    forall r | 0 <= r < |rounds| :: RoundOk(s, workers, rounds[r])
  }

  ghost predicate RoundOk(s: Setup, workers: nat, round: seq<seq<Hook>>) {
    |round| == workers && forall w | 0 <= w < workers :: HooksOk(s, round[w])
  }

  /** A whole run: the Workers that take part and everything that their hooks see. */
  datatype Job = Job(s: Setup, workers: nat, rounds: Rounds)

  ghost predicate JobOk(job: Job) {
    SetupOk(job.s) && job.workers > 0 && RoundsOk(job.s, job.workers, job.rounds)
  }

  /** Position i of parameter j. */
  predicate Within(job: Job, j: nat, i: nat) {
    j < |job.s.params| && i < job.s.params[j].numel
  }

  ghost function Outcomes(s: Setup, inputs: seq<seq<Hook>>, round: nat, before: seq<Residuals>): (o: seq<Outcome>)
    requires SetupOk(s) && RoundOk(s, |before|, inputs)
    ensures |o| == |before|
  {
    seq(|before|, w requires 0 <= w < |before| => RunHooks(s, inputs[w], |inputs[w]|, round, before[w]))
  }

  /** The Workers' residuals after r rounds; none is kept at the start. */
  ghost function Kept(job: Job, r: nat): (k: seq<Residuals>)
    requires JobOk(job) && r <= |job.rounds|
    ensures |k| == job.workers
  {
    if r == 0 then seq(job.workers, w => map[])
    else
      var o := Outcomes(job.s, job.rounds[r-1], r, Kept(job, r - 1));
      seq(job.workers, w requires 0 <= w < job.workers => o[w].residuals)
  }

  /** What the Workers send for parameter j in round r + 1. */
  ghost function Sent(job: Job, r: nat, j: nat): (c: seq<Chunk>)
    requires JobOk(job) && r < |job.rounds| && j < |job.s.params|
    ensures |c| == job.workers
  {
    var o := Outcomes(job.s, job.rounds[r], r + 1, Kept(job, r));
    seq(job.workers, w requires 0 <= w < job.workers => SentChunk(job.s, o[w].chunks, j, r + 1))
  }

  ghost function KeptAt(s: Setup, kept: seq<Residuals>, n: nat, j: nat, i: nat): real
    requires n <= |kept| && j < |s.params| && i < s.params[j].numel
  {
    if n == 0 then 0.0
    else KeptAt(s, kept, n - 1, j, i) + Prior(kept[n-1], s.params[j].name, s.params[j].numel)[i]
  }

  ghost function LocalAt(s: Setup, inputs: seq<seq<Hook>>, n: nat, j: nat, i: nat): real
    requires n <= |inputs| && RoundOk(s, |inputs|, inputs) && j < |s.params| && i < s.params[j].numel
  {
    if n == 0 then 0.0
    else LocalAt(s, inputs, n - 1, j, i) + LocalGradient(s, inputs[n-1], |inputs[n-1]|, j)[i]
  }

  lemma SentFits(job: Job, r: nat, j: nat, w: nat)
    requires JobOk(job) && r < |job.rounds| && j < |job.s.params| && w < job.workers
    ensures FitsRound(job.s.cfg, Sent(job, r, j)[w], job.s.params[j].numel, r + 1)
    ensures Plus(Meaning(Sent(job, r, j)[w]),
                 Prior(Kept(job, r + 1)[w], job.s.params[j].name, job.s.params[j].numel))
         == Plus(LocalGradient(job.s, job.rounds[r][w], |job.rounds[r][w]|, j),
                 Prior(Kept(job, r)[w], job.s.params[j].name, job.s.params[j].numel))
  {
    HooksConserve(job.s, job.rounds[r][w], |job.rounds[r][w]|, r + 1, Kept(job, r)[w], j);
  }

  lemma SentAt(job: Job, r: nat, j: nat, i: nat, w: nat)
    requires JobOk(job) && r < |job.rounds| && Within(job, j, i) && w < job.workers
    ensures FitsRound(job.s.cfg, Sent(job, r, j)[w], job.s.params[j].numel, r + 1)
    ensures Meaning(Sent(job, r, j)[w])[i] + Prior(Kept(job, r + 1)[w], job.s.params[j].name, job.s.params[j].numel)[i]
         == LocalGradient(job.s, job.rounds[r][w], |job.rounds[r][w]|, j)[i]
            + Prior(Kept(job, r)[w], job.s.params[j].name, job.s.params[j].numel)[i]
  {
    SentFits(job, r, j, w);
    PlusAt(Meaning(Sent(job, r, j)[w]), Prior(Kept(job, r + 1)[w], job.s.params[j].name, job.s.params[j].numel),
           LocalGradient(job.s, job.rounds[r][w], |job.rounds[r][w]|, j),
           Prior(Kept(job, r)[w], job.s.params[j].name, job.s.params[j].numel), i);
  }

  lemma PlusAt(a: Vec, b: Vec, c: Vec, d: Vec, i: nat)
    requires |a| == |b| && |c| == |d| && Plus(a, b) == Plus(c, d) && i < |a|
    ensures i < |c| && a[i] + b[i] == c[i] + d[i]
  {
    assert Plus(a, b)[i] == Plus(c, d)[i];
  }

  /** The Master can average every round of every parameter: the Workers agree on when to compress. */
  lemma SentAverageable(job: Job, r: nat, j: nat)
    requires JobOk(job) && r < |job.rounds| && j < |job.s.params|
    ensures AllDecodable(Sent(job, r, j), job.s.params[j].numel)
    ensures Averageable(Sent(job, r, j), job.s.params[j].numel)
  {
    var sent := Sent(job, r, j);
    forall c | c in sent ensures FitsRound(job.s.cfg, c, job.s.params[j].numel, r + 1) {
      var w :| 0 <= w < |sent| && sent[w] == c;
      SentFits(job, r, j, w);
    }
    FittingAverageable(job.s.cfg, sent, job.s.params[j].numel, r + 1);
  }

  lemma {:induction false} WorkersConserve(job: Job, r: nat, j: nat, i: nat, n: nat)
    requires JobOk(job) && r < |job.rounds| && Within(job, j, i)
    requires n <= job.workers && AllDecodable(Sent(job, r, j), job.s.params[j].numel)
    ensures AllDecodable(Sent(job, r, j)[..n], job.s.params[j].numel)
    ensures SumAt(Sent(job, r, j)[..n], job.s.params[j].numel, i)
            + KeptAt(job.s, Kept(job, r + 1), n, j, i)
         == LocalAt(job.s, job.rounds[r], n, j, i) + KeptAt(job.s, Kept(job, r), n, j, i)
  {
    if n == 0 {
      assert Sent(job, r, j)[..0] == [];
    } else {
      WorkersConserve(job, r, j, i, n - 1);
      OneMoreWorker(job, r, j, i, n - 1);
    }
  }

  lemma OneMoreWorker(job: Job, r: nat, j: nat, i: nat, n: nat)
    requires JobOk(job) && r < |job.rounds| && Within(job, j, i)
    requires n < job.workers && AllDecodable(Sent(job, r, j), job.s.params[j].numel)
    ensures AllDecodable(Sent(job, r, j)[..n], job.s.params[j].numel)
    ensures AllDecodable(Sent(job, r, j)[..n+1], job.s.params[j].numel)
    ensures SumAt(Sent(job, r, j)[..n+1], job.s.params[j].numel, i) - SumAt(Sent(job, r, j)[..n], job.s.params[j].numel, i)
            + (KeptAt(job.s, Kept(job, r + 1), n + 1, j, i) - KeptAt(job.s, Kept(job, r + 1), n, j, i))
         == LocalAt(job.s, job.rounds[r], n + 1, j, i) - LocalAt(job.s, job.rounds[r], n, j, i)
            + (KeptAt(job.s, Kept(job, r), n + 1, j, i) - KeptAt(job.s, Kept(job, r), n, j, i))
  {
    SumAtPrefix(Sent(job, r, j), job.s.params[j].numel, n, i);
    SentAt(job, r, j, i, n);
  }

  /** What the Master answers for parameter j in round r + 1. */
  ghost function Answer(job: Job, r: nat, j: nat): (v: Vec)
    requires JobOk(job) && r < |job.rounds| && j < |job.s.params|
    ensures |v| == job.s.params[j].numel
  {
    SentAverageable(job, r, j);
    Mean(Sent(job, r, j), job.s.params[j].numel)
  }

  /** The sum over the Workers of the residuals after r rounds. */
  ghost function KeptTotal(job: Job, r: nat, j: nat, i: nat): real
    requires JobOk(job) && r <= |job.rounds| && Within(job, j, i)
  {
    KeptAt(job.s, Kept(job, r), job.workers, j, i)
  }

  /** The sum over the Workers of the local gradients of round r + 1. */
  ghost function LocalIn(job: Job, r: nat, j: nat, i: nat): real
    requires JobOk(job) && r < |job.rounds| && Within(job, j, i)
  {
    LocalAt(job.s, job.rounds[r], job.workers, j, i)
  }

  lemma {:induction false} NothingKept(s: Setup, kept: seq<Residuals>, n: nat, j: nat, i: nat)
    requires n <= |kept| && j < |s.params| && i < s.params[j].numel
    requires forall w | 0 <= w < |kept| :: kept[w] == map[]
    ensures KeptAt(s, kept, n, j, i) == 0.0
  {
    if n > 0 {
      NothingKept(s, kept, n - 1, j, i);
    }
  }

  lemma MeanTimes(chunks: seq<Chunk>, numel: nat, i: nat)
    requires chunks != [] && AllDecodable(chunks, numel) && i < numel
    ensures Times(|chunks|, Mean(chunks, numel)[i]) == SumAt(chunks, numel, i)
  {
    var sum := SumAt(chunks, numel, i);
    TimesQuotient(|chunks|, sum);
    assert Mean(chunks, numel)[i] == sum / |chunks| as real;
  }

  lemma TimesQuotient(n: nat, sum: real)
    requires n > 0
    ensures Times(n, sum / n as real) == sum
  {
    TimesIs(n, sum / n as real);
  }

  lemma OneRound(job: Job, r: nat, j: nat, i: nat)
    requires JobOk(job) && r < |job.rounds| && Within(job, j, i)
    ensures Balances(job.workers, Answer(job, r, j)[i], KeptTotal(job, r + 1, j, i),
                     LocalIn(job, r, j, i), KeptTotal(job, r, j, i))
  {
    var sent := Sent(job, r, j);
    SentAverageable(job, r, j);
    WorkersConserve(job, r, j, i, job.workers);
    assert sent[..job.workers] == sent;
    MeanTimes(sent, job.s.params[j].numel, i);
  }

  // ---------- the warm-up ----------

  /** Round r + 1 is sent uncompressed. */
  predicate InWarmup(job: Job, r: nat) {
    !job.s.cfg.topK || r + 1 <= job.s.cfg.warmupSteps
  }

  lemma {:induction false} HooksKeepNothing(s: Setup, hooks: seq<Hook>, n: nat, round: nat, residuals: Residuals)
    requires SetupOk(s) && HooksOk(s, hooks) && n <= |hooks|
    requires !s.cfg.topK || round <= s.cfg.warmupSteps
    ensures RunHooks(s, hooks, n, round, residuals).residuals == residuals
  {
    if n > 0 {
      var h := hooks[n-1];
      assert HookOk(s, h);
      HooksKeepNothing(s, hooks, n - 1, round, residuals);
      ReadyInWarmup(s.params[h.order].name, h.order, h.gradient, s.cfg, h.topk, h.sample, residuals, round);
    }
  }

  lemma {:induction false} WarmupKeepsNothing(job: Job, r: nat)
    requires JobOk(job) && r <= |job.rounds| && (r == 0 || InWarmup(job, r - 1))
    ensures forall w | 0 <= w < job.workers :: Kept(job, r)[w] == map[]
  {
    if r > 0 {
      WarmupKeepsNothing(job, r - 1);
      forall w | 0 <= w < job.workers ensures Kept(job, r)[w] == map[] {
        HooksKeepNothing(job.s, job.rounds[r-1][w], |job.rounds[r-1][w]|, r, Kept(job, r - 1)[w]);
      }
    }
  }

  lemma BalancedAt(n: nat, answers: seq<real>, kept: seq<real>, locals: seq<real>, q: nat)
    requires BalancesEach(n, answers, kept, locals) && q < |answers| && kept[q] == 0.0 && kept[q+1] == 0.0
    ensures Times(n, answers[q]) == locals[q]
  {
    assert Balances(n, answers[q], kept[q+1], locals[q], kept[q]);
  }

  /** In a round without compression the averaged gradient is the mean of the local gradients, exactly. */
  lemma WarmupMean(job: Job, r: nat, j: nat, i: nat)
    requires JobOk(job) && r < |job.rounds| && Within(job, j, i) && InWarmup(job, r)
    ensures Times(job.workers, Answers(job, j, i)[r]) == Locals(job, j, i)[r]
  {
    RoundsBalance(job, j, i);
    NothingKeptIn(job, r, j, i);
    NothingKeptIn(job, r + 1, j, i);
    BalancedAt(job.workers, Answers(job, j, i), Keeps(job, j, i), Locals(job, j, i), r);
  }

  lemma NothingKeptIn(job: Job, r: nat, j: nat, i: nat)
    requires JobOk(job) && r <= |job.rounds| && Within(job, j, i) && (r == 0 || InWarmup(job, r - 1))
    ensures Keeps(job, j, i)[r] == 0.0
  {
    WarmupKeepsNothing(job, r);
    NothingKept(job.s, Kept(job, r), job.workers, j, i);
  }

  // ---------- all rounds together ----------

  function SumTo(terms: seq<real>, n: nat): real
    requires n <= |terms|
  {
    if n == 0 then 0.0 else SumTo(terms, n - 1) + terms[n-1]
  }

  ghost predicate Balances(n: nat, answer: real, kept: real, local: real, keptBefore: real) {
    Times(n, answer) + kept == local + keptBefore
  }

  lemma {:induction false} TimesPlus(n: nat, a: real, b: real)
    ensures Times(n, a + b) == Times(n, a) + Times(n, b)
  {
    if n > 0 {
      TimesPlus(n - 1, a, b);
    }
  }

  ghost predicate BalancesEach(n: nat, answers: seq<real>, kept: seq<real>, locals: seq<real>) {
    && |answers| == |locals| && |kept| == |answers| + 1
    && forall q: nat | q < |answers| :: Balances(n, answers[q], kept[q+1], locals[q], kept[q])
  }

  /** Rounds that balance one by one balance in sum. */
  lemma {:induction false} Telescopes(n: nat, answers: seq<real>, kept: seq<real>, locals: seq<real>, r: nat)
    requires BalancesEach(n, answers, kept, locals) && r <= |answers| && kept[0] == 0.0
    ensures Times(n, SumTo(answers, r)) + kept[r] == SumTo(locals, r)
  {
    if r == 0 {
      TimesIs(n, 0.0);
    } else {
      Telescopes(n, answers, kept, locals, r - 1);
      TimesPlus(n, SumTo(answers, r - 1), answers[r-1]);
      assert Balances(n, answers[r-1], kept[r], locals[r-1], kept[r-1]);
    }
  }

  /** What the Master answers for position i of parameter j, round by round. */
  ghost function Answers(job: Job, j: nat, i: nat): (a: seq<real>)
    requires JobOk(job) && Within(job, j, i)
    ensures |a| == |job.rounds|
  {
    seq(|job.rounds|, q requires 0 <= q < |job.rounds| => Answer(job, q, j)[i])
  }

  /** The Workers' gradients there, summed, round by round. */
  ghost function Locals(job: Job, j: nat, i: nat): (l: seq<real>)
    requires JobOk(job) && Within(job, j, i)
    ensures |l| == |job.rounds|
  {
    seq(|job.rounds|, q requires 0 <= q < |job.rounds| => LocalIn(job, q, j, i))
  }

  /** The Workers' residuals there, summed, before the first and after every round. */
  ghost function Keeps(job: Job, j: nat, i: nat): (k: seq<real>)
    requires JobOk(job) && Within(job, j, i)
    ensures |k| == |job.rounds| + 1
  {
    seq(|job.rounds| + 1, q requires 0 <= q <= |job.rounds| => KeptTotal(job, q, j, i))
  }

  lemma StartsEmpty(job: Job, j: nat, i: nat)
    requires JobOk(job) && Within(job, j, i)
    ensures Keeps(job, j, i)[0] == 0.0
  {
    NothingKept(job.s, Kept(job, 0), job.workers, j, i);
  }

  lemma RoundBalances(job: Job, j: nat, i: nat, q: nat)
    requires JobOk(job) && Within(job, j, i) && q < |job.rounds|
    ensures Balances(job.workers, Answers(job, j, i)[q], Keeps(job, j, i)[q+1], Locals(job, j, i)[q], Keeps(job, j, i)[q])
  {
    OneRound(job, q, j, i);
    SameBalance(job.workers, Answer(job, q, j)[i], KeptTotal(job, q + 1, j, i), LocalIn(job, q, j, i), KeptTotal(job, q, j, i),
                Answers(job, j, i)[q], Keeps(job, j, i)[q+1], Locals(job, j, i)[q], Keeps(job, j, i)[q]);
  }

  lemma SameBalance(n: nat, a: real, k: real, l: real, b: real, answer: real, kept: real, local: real, before: real)
    requires Balances(n, a, k, l, b) && a == answer && k == kept && l == local && b == before
    ensures Balances(n, answer, kept, local, before)
  {
  }

  lemma RoundsBalance(job: Job, j: nat, i: nat)
    requires JobOk(job) && Within(job, j, i)
    ensures BalancesEach(job.workers, Answers(job, j, i), Keeps(job, j, i), Locals(job, j, i))
  {
    forall q: nat | q < |job.rounds|
      ensures Balances(job.workers, Answers(job, j, i)[q], Keeps(job, j, i)[q+1], Locals(job, j, i)[q], Keeps(job, j, i)[q])
    {
      RoundBalances(job, j, i, q);
    }
  }

  /** After any number of rounds, warm-up and missing gradients included: Workers times the sum of the averaged
      gradients, plus all residuals, is the sum of all local gradients. (Times is the product, by TimesIs.) */
  lemma SystemConserves(job: Job, r: nat, j: nat, i: nat)
    requires JobOk(job) && r <= |job.rounds| && Within(job, j, i)
    ensures Times(job.workers, SumTo(Answers(job, j, i), r)) + Keeps(job, j, i)[r] == SumTo(Locals(job, j, i), r)
  {
    StartsEmpty(job, j, i);
    RoundsBalance(job, j, i);
    Telescopes(job.workers, Answers(job, j, i), Keeps(job, j, i), Locals(job, j, i), r);
  }
}
