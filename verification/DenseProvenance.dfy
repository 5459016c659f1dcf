/** Where the averaged whole gradients come from: every one is a gradient that its Worker arrived with. */
module DenseProvenance {
  import opened Wrappers
  import opened Gradients
  import opened DenseRounds

  predicate Sends(step: Step, w: Worker, g: seq<Chunk>) {
    step.Arrive? && step.w == w && step.g == g
  }

  ghost predicate SentIn(steps: seq<Step>, w: Worker, g: seq<Chunk>) {
    exists i :: 0 <= i < |steps| && Sends(steps[i], w, g)
  }

  ghost predicate RoundFrom(past: seq<Step>, r: Round) {
    forall w | w in r.gradients :: SentIn(past, w, r.gradients[w])
  }

  ghost predicate CallFrom(past: seq<Step>, call: Call) {
    call.AtGate? ==> SentIn(past, call.w, call.g)
  }

  ghost predicate FromWorkers(sys: Sys, past: seq<Step>) {
    && (forall ref | ref in sys.heap :: RoundFrom(past, sys.heap[ref]))
    && (forall c | c in sys.calls :: CallFrom(past, sys.calls[c]))
  }

  lemma LaterToo(past: seq<Step>, step: Step, w: Worker, g: seq<Chunk>)
    requires SentIn(past, w, g)
    ensures SentIn(past + [step], w, g)
  {
    var i :| 0 <= i < |past| && Sends(past[i], w, g);
    assert Sends((past + [step])[i], w, g);
  }

  lemma SentNow(past: seq<Step>, step: Step)
    requires step.Arrive?
    ensures SentIn(past + [step], step.w, step.g)
  {
    assert Sends((past + [step])[|past|], step.w, step.g);
  }

  lemma NextFrom(cfg: Config, sys: Sys, past: seq<Step>, step: Step)
    requires FromWorkers(sys, past) && Enabled(sys, step)
    ensures FromWorkers(Next(cfg, sys, step), past + [step])
  {
    var after := Next(cfg, sys, step);
    forall ref | ref in after.heap ensures RoundFrom(past + [step], after.heap[ref]) {
      forall w | w in after.heap[ref].gradients ensures SentIn(past + [step], w, after.heap[ref].gradients[w]) {
        GradientFrom(cfg, sys, past, step, ref, w);
        LaterToo(past, step, w, after.heap[ref].gradients[w]);
      }
    }
    forall c | c in after.calls ensures CallFrom(past + [step], after.calls[c]) {
      if after.calls[c].AtGate? {
        if c in sys.calls {
          assert CallFrom(past, sys.calls[c]);
          LaterToo(past, step, after.calls[c].w, after.calls[c].g);
        } else {
          SentNow(past, step);
        }
      }
    }
  }

  lemma GradientFrom(cfg: Config, sys: Sys, past: seq<Step>, step: Step, ref: nat, w: Worker)
    requires FromWorkers(sys, past) && Enabled(sys, step)
    requires ref in Next(cfg, sys, step).heap && w in Next(cfg, sys, step).heap[ref].gradients
    ensures SentIn(past, w, Next(cfg, sys, step).heap[ref].gradients[w])
  {
    match step
    case Enter(c) => assert CallFrom(past, sys.calls[c]);
    case _ =>
  }

  lemma {:induction false} RunFrom(cfg: Config, sys: Sys, past: seq<Step>, steps: seq<Step>)
    requires FromWorkers(sys, past) && ValidRun(cfg, sys, steps)
    ensures FromWorkers(After(cfg, sys, steps), past + steps)
    decreases steps
  {
    if steps == [] {
      assert past + steps == past;
    } else {
      NextFrom(cfg, sys, past, steps[0]);
      RunFrom(cfg, Next(cfg, sys, steps[0]), past + [steps[0]], steps[1..]);
      assert past + [steps[0]] + steps[1..] == past + steps;
    }
  }

  /** In every run: what a round holds for a Worker is a gradient that this Worker arrived with. */
  lemma HoldsWhatWasSent(cfg: Config, steps: seq<Step>, ref: nat, w: Worker)
    requires ValidRun(cfg, INIT, steps)
    requires ref in After(cfg, INIT, steps).heap && w in After(cfg, INIT, steps).heap[ref].gradients
    ensures exists i :: 0 <= i < |steps| && Sends(steps[i], w, After(cfg, INIT, steps).heap[ref].gradients[w])
  {
    RunFrom(cfg, INIT, [], steps);
    assert [] + steps == steps;
    var r := After(cfg, INIT, steps).heap[ref];
    assert RoundFrom(steps, r);
    assert SentIn(steps, w, r.gradients[w]);
  }
}
