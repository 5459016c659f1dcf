/** Gradient accumulation: which backward pass is the one whose gradients are sent. */
module Accumulation {
  import opened Arithmetic

  datatype Passes = Passes(completed: int, active: bool, final: bool)

  const START := Passes(0, false, false)

  function Steps(accumulation: int): int {
    if accumulation < 1 then 1 else accumulation
  }

  /** The first hook of a pass; the hooks after it change nothing. */
  function Begun(s: Passes, accumulation: int): Passes {
    if s.active then s
    else if s.completed + 1 > Steps(accumulation) then Passes(0, true, 1 >= Steps(accumulation))
    else Passes(s.completed, true, s.completed + 1 >= Steps(accumulation))
  }

  /** The callback that autograd runs after a pass. */
  function Ended(s: Passes, accumulation: int): Passes {
    if !s.active then s
    else if s.final then Passes(Steps(accumulation), false, false)
    else Passes(if s.completed + 1 < Steps(accumulation) then s.completed + 1 else Steps(accumulation), false, false)
  }

  /** The end of the wrapped optimizer's step. */
  function Stepped(s: Passes): Passes {
    START
  }

  class BackwardPasses {
    const accumulation: int
    var completed: int
    var active: bool
    var final: bool

    function Value(): Passes
      reads this
    {
      Passes(completed, active, final)
    }

    constructor (accumulation: int)
      ensures this.accumulation == accumulation && Value() == START
    {
      this.accumulation := accumulation;
      completed, active, final := 0, false, false;
    }

    method BeginBackwardPass()
      modifies this
      ensures Value() == Begun(old(Value()), accumulation)
    {
      if active {
        return;
      }
      active := true;
      var next := completed + 1;
      var steps := Steps(accumulation);
      if next > steps {
        next := 1;
        completed := 0;
      }
      final := next >= steps;
    }

    method FinishBackwardPass()
      modifies this
      ensures Value() == Ended(old(Value()), accumulation)
    {
      if !active {
        return;
      }
      var steps := Steps(accumulation);
      if final {
        completed := steps;
      } else {
        completed := if steps < completed + 1 then steps else completed + 1;
      }
      active, final := false, false;
    }

    method FinishStep()
      modifies this
      ensures Value() == Stepped(old(Value()))
    {
      completed, active, final := 0, false, false;
    }
  }

  // ---------- runs ----------

  datatype Event = Hook | PassDone | StepDone

  function Next(s: Passes, accumulation: int, e: Event): Passes {
    match e
    case Hook => Begun(s, accumulation)
    case PassDone => Ended(s, accumulation)
    case StepDone => Stepped(s)
  }

  function After(events: seq<Event>, accumulation: int): Passes {
    if events == [] then START
    else Next(After(events[..|events| - 1], accumulation), accumulation, events[|events| - 1])
  }

  /** The number of backward passes since the last optimizer step, the current one included. A pass starts with the
      first hook after the last callback. */
  function PassNumber(events: seq<Event>): nat {
    if events == [] then 0
    else
      var before := events[..|events| - 1];
      match events[|events| - 1]
      case Hook => if InPass(before) then PassNumber(before) else PassNumber(before) + 1
      case PassDone => PassNumber(before)
      case StepDone => 0
  }

  predicate InPass(events: seq<Event>) {
    events != [] &&
    match events[|events| - 1]
    case Hook => true
    case PassDone => false
    case StepDone => false
  }

  /** The k-th pass, q full accumulations into the step. */
  ghost predicate Counts(s: Passes, steps: int, k: int, q: int) {
    && 0 <= s.completed <= steps
    && (s.active ==> k - 1 == q * steps + s.completed && s.completed < steps && (s.final <==> s.completed + 1 == steps))
    && (!s.active ==> k == q * steps + s.completed && !s.final)
  }

  lemma {:induction false} RunCounts(events: seq<Event>, accumulation: int) returns (q: int)
    ensures q >= 0 && Counts(After(events, accumulation), Steps(accumulation), PassNumber(events), q)
    ensures After(events, accumulation).active == InPass(events)
  {
    q := 0;
    if events != [] {
      var before := events[..|events| - 1];
      q := RunCounts(before, accumulation);
      var s := After(before, accumulation);
      NextProduct(q, Steps(accumulation));
      match events[|events| - 1]
      case Hook =>
        if !s.active && s.completed == Steps(accumulation) {
          q := q + 1;
        }
      case PassDone =>
      case StepDone =>
        q := 0;
    }
  }

  lemma MultipleExactlyWhen(k: int, steps: int, q: int, r: int)
    requires steps > 0 && k == q * steps + r && 0 < r <= steps
    ensures k % steps == 0 <==> r == steps
  {
    NextProduct(q, steps);
    if r == steps {
      RemainderIs(k, steps, q + 1, 0);
    } else {
      RemainderIs(k, steps, q, r);
    }
  }

  /** In every run, a backward pass is marked as final exactly when the number of passes since the last optimizer step,
      or since the start, is a multiple of the accumulation steps; every pass is when none are configured. */
  lemma FinalExactlyWhen(events: seq<Event>, accumulation: int)
    requires InPass(events)
    ensures After(events, accumulation).final <==> accumulation <= 1 || PassNumber(events) % accumulation == 0
  {
    var q := RunCounts(events, accumulation);
    var s := After(events, accumulation);
    MultipleExactlyWhen(PassNumber(events), Steps(accumulation), q, s.completed + 1);
  }
}
