/** A run of one Worker, without abort, in which a key is averaged twice: round 2 of a layer is opened while the call for
    round 1 has not returned, and returns first; then round 2 is opened again. */
module KeyedAgain {
  import opened Wrappers
  import opened Gradients
  import opened KeyedRounds
  import opened KeyedRuns
  import opened KeyedOrder
  import opened KeyedBackwards

  function SingleCall(k: Key): Call {
    Call(true, [k], {k}, false)
  }

  function FullOf(g: Group): Round {
    Round(map["w" := g], Some(g), None, 1)
  }

  /** The job has one Worker, and its group is its own average. */
  ghost predicate Alone(cfg: Config, g: Group) {
    cfg.workers == {"w"} && cfg.wellFormed(g) && cfg.average(map["w" := g]) == Average(g)
  }

  /** One Worker, one request: the round opens, is full at once and is averaged. */
  lemma OpenAlone(cfg: Config, sys: Sys, c: CallId, k: Key, g: Group) returns (after: Sys)
    requires Alone(cfg, g) && c.worker == "w" && c !in sys.calls && Fresh(sys.svc, k) && k !in sys.svc.rounds
    requires forall d | d in sys.calls :: !sys.calls[d].asleep
    ensures Reaches(cfg, false, sys, [Open(c, true, [Request(k, g)])], after)
    ensures after.svc == Service(sys.svc.rounds[k := FullOf(g)], sys.svc.completed)
    ensures after.calls == sys.calls[c := SingleCall(k)]
    ensures after.averagings == sys.averagings + [Averaging(k, map["w" := g])]
  {
    var rs := [Request(k, g)];
    var step := Open(c, true, rs);
    OneAccepted(cfg, sys.svc, "w", k, g);
    OpenedWhole(cfg, sys, c, true, rs);
    OneRequest(k, g);
    OneSettled(cfg, sys.svc, "w", k, g);
    OneAveraging(cfg, Inserted(sys.svc, "w", rs), k, g);
    AloneRound(cfg, sys.svc, k, g);
    assert Woken(sys.calls) == sys.calls;
    OneStep(cfg, false, sys, step);
    after := Next(cfg, sys, step);
  }

  lemma AloneRound(cfg: Config, s: Service, k: Key, g: Group)
    requires Alone(cfg, g) && k !in s.rounds
    ensures Join(Lookup(s, k), "w", g).submissions == map["w" := g]
    ensures WithSubmission(cfg, s, "w", k, g) == FullOf(g)
  {
  }

  lemma ReturnAlone(cfg: Config, sys: Sys, c: CallId, k: Key, g: Group) returns (after: Sys)
    requires c in sys.calls && sys.calls[c] == SingleCall(k) && k in sys.svc.rounds && sys.svc.rounds[k] == FullOf(g)
    ensures Reaches(cfg, false, sys, [Return(c)], after)
    ensures after.svc == Service(sys.svc.rounds - {k}, sys.svc.completed[k.id := k.round])
    ensures after.calls == sys.calls - {c}
    ensures after.averagings == sys.averagings
  {
    assert Permutes([k], {k});
    assert CanProceed(sys.svc, sys.calls[c]);
    OneStep(cfg, false, sys, Return(c));
    after := Next(cfg, sys, Return(c));
    assert [k][1..] == [];
    var left := Left(sys, c, k);
    assert LeftAll(sys, c, [k]) == left;
    assert left.calls - {c} == sys.calls - {c};
  }

  const FIRST := Key("layer", 1)
  const SECOND := Key("layer", 2)

  function OpenStep(number: nat, k: Key, g: Group): Step {
    Open(CallId("w", number), true, [Request(k, g)])
  }

  function Opens(g: Group): seq<Step> {
    [OpenStep(1, FIRST, g)] + [OpenStep(2, SECOND, g)]
  }

  function Returns(): seq<Step> {
    [Return(CallId("w", 2))] + [Return(CallId("w", 1))]
  }

  function OutOfTurn(g: Group): seq<Step> {
    Opens(g) + Returns() + [OpenStep(3, SECOND, g)]
  }

  lemma BothOpened(cfg: Config, g: Group) returns (sys: Sys)
    requires Alone(cfg, g)
    ensures Reaches(cfg, false, INIT, Opens(g), sys)
    ensures sys.svc == Service(map[FIRST := FullOf(g), SECOND := FullOf(g)], map[])
    ensures sys.calls == map[CallId("w", 1) := SingleCall(FIRST), CallId("w", 2) := SingleCall(SECOND)]
    ensures |sys.averagings| == 2 && sys.averagings[1].key == SECOND
  {
    var a := OpenAlone(cfg, INIT, CallId("w", 1), FIRST, g);
    sys := OpenAlone(cfg, a, CallId("w", 2), SECOND, g);
    Then(cfg, false, INIT, [OpenStep(1, FIRST, g)], a, [OpenStep(2, SECOND, g)], sys);
  }

  lemma BothReturned(cfg: Config, sys: Sys, g: Group) returns (after: Sys)
    requires sys.svc == Service(map[FIRST := FullOf(g), SECOND := FullOf(g)], map[])
    requires sys.calls == map[CallId("w", 1) := SingleCall(FIRST), CallId("w", 2) := SingleCall(SECOND)]
    ensures Reaches(cfg, false, sys, Returns(), after)
    ensures after.svc.rounds == map[] && after.svc.completed == map["layer" := 1] && after.calls == map[]
    ensures after.averagings == sys.averagings
  {
    var a := ReturnAlone(cfg, sys, CallId("w", 2), SECOND, g);
    after := ReturnAlone(cfg, a, CallId("w", 1), FIRST, g);
    Then(cfg, false, sys, [Return(CallId("w", 2))], a, [Return(CallId("w", 1))], after);
    assert after.svc.completed == map["layer" := 1];
    assert after.svc.rounds == map[];
  }

  lemma OpenedAgain(cfg: Config, sys: Sys, g: Group) returns (after: Sys)
    requires Alone(cfg, g) && sys.svc.rounds == map[] && sys.svc.completed == map["layer" := 1] && sys.calls == map[]
    requires |sys.averagings| == 2 && sys.averagings[1].key == SECOND
    ensures Reaches(cfg, false, sys, [OpenStep(3, SECOND, g)], after) && !Once(after.averagings)
  {
    after := OpenAlone(cfg, sys, CallId("w", 3), SECOND, g);
    assert after.averagings[1].key == after.averagings[2].key;
  }

  lemma ThreeParts(cfg: Config, sys: Sys, p: seq<Step>, a: Sys, q: seq<Step>, b: Sys, r: seq<Step>, end: Sys)
    requires Reaches(cfg, false, sys, p, a) && Reaches(cfg, false, a, q, b) && Reaches(cfg, false, b, r, end)
    ensures Reaches(cfg, false, sys, p + q + r, end)
  {
    Then(cfg, false, sys, p, a, q, b);
    Then(cfg, false, sys, p + q, b, r, end);
  }

  /** When round 1 is left after round 2, the record moves back to 1, round 2 is accepted again, and the same key is
      averaged twice. */
  lemma AveragedTwice(cfg: Config, g: Group)
    requires Alone(cfg, g)
    ensures ValidRun(cfg, INIT, OutOfTurn(g)) && !Once(After(cfg, INIT, OutOfTurn(g)).averagings)
  {
    var a := BothOpened(cfg, g);
    var b := BothReturned(cfg, a, g);
    var end := OpenedAgain(cfg, b, g);
    ThreeParts(cfg, INIT, Opens(g), a, Returns(), b, [OpenStep(3, SECOND, g)], end);
    ReachesIs(cfg, false, INIT, OutOfTurn(g), end);
  }
}
