/** What the callers of the dense barrier end up with: a call that runs into no error is handed the response of its round
    exactly once, an abort leaves the calls that wait inside with its reason and nothing else, and every error has a
    cause. */
module DenseOutcomes {
  import opened Wrappers
  import opened Gradients
  import opened DenseRounds

  // ---------- responses ----------

  /** How often the call was handed a response. */
  function Handed(ds: seq<Delivery>, c: nat): nat {
    if ds == [] then 0
    else Handed(ds[..|ds| - 1], c) + (if ds[|ds| - 1].call == c then 1 else 0)
  }

  /** The call does not leave a round that has an error. */
  predicate Untroubled(sys: Sys, step: Step, c: nat) {
    step == Leave(c) && CanLeave(sys, c) ==> sys.heap[sys.calls[c].ref].err.None?
  }

  ghost predicate Accounts(a: Sys, b: Sys, c: nat) {
    Handed(b.deliveries, c) == Handed(a.deliveries, c) + (if c in a.calls && c !in b.calls then 1 else 0)
  }

  lemma StepAccounts(cfg: Config, sys: Sys, step: Step, c: nat)
    requires Enabled(sys, step) && Untroubled(sys, step, c)
    ensures Accounts(sys, Next(cfg, sys, step), c)
  {
    if step.Leave? {
      var ds, after := sys.deliveries, Next(cfg, sys, step).deliveries;
      if after != ds {
        assert after[..|after| - 1] == ds;
      }
    }
  }

  /** The call does not arrive again and does not leave with an error in this part of the run. */
  ghost predicate GoesWell(cfg: Config, sys: Sys, steps: seq<Step>, c: nat)
    requires ValidRun(cfg, sys, steps)
    decreases steps
  {
    steps == [] ||
    (&& Untroubled(sys, steps[0], c) && (steps[0].Arrive? ==> steps[0].c != c)
     && GoesWell(cfg, Next(cfg, sys, steps[0]), steps[1..], c))
  }

  lemma NotBack(cfg: Config, sys: Sys, step: Step, c: nat)
    requires Enabled(sys, step) && (step.Arrive? ==> step.c != c)
    ensures c in Next(cfg, sys, step).calls ==> c in sys.calls
  {
  }

  /** A call that has left since was handed one response, any other call none. */
  lemma {:induction false} HandedExactlyOnce(cfg: Config, sys: Sys, steps: seq<Step>, c: nat)
    requires ValidRun(cfg, sys, steps) && GoesWell(cfg, sys, steps, c)
    ensures Accounts(sys, After(cfg, sys, steps), c)
    ensures c in After(cfg, sys, steps).calls ==> c in sys.calls
    decreases steps
  {
    if steps != [] {
      StepAccounts(cfg, sys, steps[0], c);
      NotBack(cfg, sys, steps[0], c);
      HandedExactlyOnce(cfg, Next(cfg, sys, steps[0]), steps[1..], c);
    }
  }

  // ---------- aborts ----------

  /** The call is inside a round that has an error. */
  predicate Fails(sys: Sys, c: nat) {
    c in sys.calls ==>
      sys.calls[c].Inside? && sys.calls[c].ref in sys.heap && sys.heap[sys.calls[c].ref].err.Some?
  }

  function Aborted(reason: string): string {
    "job aborted: " + reason
  }

  /** Right after an abort every call that waits inside can leave, with the reason, whether its round was answered or
      not. */
  lemma AbortFails(cfg: Config, sys: Sys, reason: string, keyedWaiters: bool, c: nat)
    requires Safe(cfg, sys) && c in sys.calls && sys.calls[c].Inside?
    ensures var after := Next(cfg, sys, Abort(reason, keyedWaiters));
            && c in after.calls && Fails(after, c) && Enabled(after, Leave(c)) && after.deliveries == sys.deliveries
            && after.heap[after.calls[c].ref].err == Some(Aborted(reason))
  {
    assert CallSafe(sys, c) && c in InsideCalls(sys.calls);
  }

  lemma StillFails(cfg: Config, sys: Sys, step: Step, c: nat)
    requires Safe(cfg, sys) && Fails(sys, c) && Enabled(sys, step) && (step.Arrive? ==> step.c != c)
    ensures Fails(Next(cfg, sys, step), c)
    ensures Handed(Next(cfg, sys, step).deliveries, c) == Handed(sys.deliveries, c)
  {
    if c in sys.calls {
      assert CallSafe(sys, c);
    }
    if step.Leave? {
      var ds, after := sys.deliveries, Next(cfg, sys, step).deliveries;
      if after != ds {
        assert after[..|after| - 1] == ds;
      }
    }
  }

  lemma {:induction false} RunFails(cfg: Config, sys: Sys, steps: seq<Step>, c: nat)
    requires Safe(cfg, sys) && Fails(sys, c) && ValidRun(cfg, sys, steps)
    requires forall step | step in steps :: DenseOnly(step) && (step.Arrive? ==> step.c != c)
    ensures Handed(After(cfg, sys, steps).deliveries, c) == Handed(sys.deliveries, c)
    decreases steps
  {
    if steps != [] {
      assert steps[0] in steps && forall later | later in steps[1..] :: later in steps;
      NextSafe(cfg, sys, steps[0]);
      StillFails(cfg, sys, steps[0], c);
      RunFails(cfg, Next(cfg, sys, steps[0]), steps[1..], c);
    }
  }

  /** Whatever happens after the abort, a call that was inside then is handed nothing. */
  lemma AbortedGetNothing(cfg: Config, sys: Sys, reason: string, steps: seq<Step>, c: nat)
    requires Safe(cfg, sys) && c in sys.calls && sys.calls[c].Inside?
    requires ValidRun(cfg, Next(cfg, sys, Abort(reason, false)), steps)
    requires forall step | step in steps :: DenseOnly(step) && (step.Arrive? ==> step.c != c)
    ensures Handed(After(cfg, Next(cfg, sys, Abort(reason, false)), steps).deliveries, c) == Handed(sys.deliveries, c)
  {
    AbortFails(cfg, sys, reason, false, c);
    NextSafe(cfg, sys, Abort(reason, false));
    RunFails(cfg, Next(cfg, sys, Abort(reason, false)), steps, c);
  }

  // ---------- errors ----------

  /** The round's error is that of averaging its submissions, or the reason of an abort in the run. */
  ghost predicate Caused(cfg: Config, past: seq<Step>, r: Round) {
    r.err.Some? ==>
      || (|r.gradients| == cfg.expected && cfg.average(r.gradients) == Failure(r.err.value))
      || (exists i :: 0 <= i < |past| && past[i].Abort? && r.err.value == Aborted(past[i].reason))
  }

  ghost predicate AllCaused(cfg: Config, sys: Sys, past: seq<Step>) {
    forall ref {:trigger Caused(cfg, past, sys.heap[ref])} | ref in sys.heap :: Caused(cfg, past, sys.heap[ref])
  }

  lemma LaterCaused(cfg: Config, past: seq<Step>, step: Step, r: Round, after: Round)
    requires Caused(cfg, past, r) && after.err == r.err && after.gradients == r.gradients
    ensures Caused(cfg, past + [step], after)
  {
    if i :| 0 <= i < |past| && past[i].Abort? && r.err == Some(Aborted(past[i].reason)) {
      assert (past + [step])[i] == past[i];
    }
  }

  lemma NextCaused(cfg: Config, sys: Sys, past: seq<Step>, step: Step)
    requires Enabled(sys, step) && AllCaused(cfg, sys, past)
    ensures AllCaused(cfg, Next(cfg, sys, step), past + [step])
  {
    var after := Next(cfg, sys, step);
    assert (past + [step])[|past|] == step;
    forall ref | ref in after.heap ensures Caused(cfg, past + [step], after.heap[ref]) {
      if ref in sys.heap {
        assert Caused(cfg, past, sys.heap[ref]);
        if after.heap[ref].err == sys.heap[ref].err && after.heap[ref].gradients == sys.heap[ref].gradients {
          LaterCaused(cfg, past, step, sys.heap[ref], after.heap[ref]);
        }
      }
    }
  }

  lemma {:induction false} RunCaused(cfg: Config, sys: Sys, past: seq<Step>, steps: seq<Step>)
    requires AllCaused(cfg, sys, past) && ValidRun(cfg, sys, steps)
    ensures AllCaused(cfg, After(cfg, sys, steps), past + steps)
    decreases steps
  {
    if steps == [] {
      assert past + steps == past;
    } else {
      NextCaused(cfg, sys, past, steps[0]);
      RunCaused(cfg, Next(cfg, sys, steps[0]), past + [steps[0]], steps[1..]);
      assert past + [steps[0]] + steps[1..] == past + steps;
    }
  }

  /** In every run, aborts with keyed receivers included: an error that a round shows is the failure of averaging its
      submissions or the reason of an abort. */
  lemma ErrorsCaused(cfg: Config, steps: seq<Step>, ref: nat)
    requires ValidRun(cfg, INIT, steps) && ref in After(cfg, INIT, steps).heap
    ensures Caused(cfg, steps, After(cfg, INIT, steps).heap[ref])
  {
    RunCaused(cfg, INIT, [], steps);
    assert [] + steps == steps;
  }
}
