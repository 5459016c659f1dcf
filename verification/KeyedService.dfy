/** The Master's service object for keyed rounds: rounds are shared objects held both by the service's
    map and by the calls that wait for them. Each method is one critical section and is proved to do
    exactly what KeyedRounds says that section does. */
module KeyedService {
  import opened Wrappers
  import opened Gradients
  import opened KeyedRounds

  class RoundState {
    const key: Key
    var submissions: map<Worker, Group>
    var response: Option<Group>
    var err: Option<string>
    var waitingReceivers: int

    constructor (key: Key)
      ensures this.key == key
      ensures Value() == Round(map[], None, None, 0)
    {
      this.key := key;
      submissions, response, err, waitingReceivers := map[], None, None, 0;
    }

    ghost function Value(): Round
      reads this
    {
      Round(submissions, response, err, waitingReceivers)
    }
  }

  lemma ReleasedNext(s: Service, order: seq<Key>, i: nat)
    requires i < |order| && Releasable(s, order[i..])
    ensures order[i] in s.rounds && Releasable(Released(s, order[i]), order[i+1..])
    ensures ReleasedAll(s, order[i..]) == ReleasedAll(Released(s, order[i]), order[i+1..])
  {
    assert order[i..][0] == order[i] && order[i..][1..] == order[i+1..];
    assert forall k | k in order[i+1..] :: k in order[i..] && k != order[i];
  }

  class Aggregator {
    var rounds: map<Key, RoundState>
    var completed: map<string, nat>

    constructor ()
      ensures Valid() && Value() == Service(map[], map[])
    {
      rounds, completed := map[], map[];
      new;
      assert Value().rounds == map[];
    }

    ghost predicate Valid()
      reads this
    {
      forall k | k in rounds :: rounds[k].key == k
    }

    ghost function Value(): Service
      reads this, rounds.Values
    {
      Service(map k | k in rounds :: rounds[k].Value(), completed)
    }

    /** One request joins its round, which is created if it is the first. */
    method JoinRound(w: Worker, r: Request) returns (round: RoundState)
      requires Valid()
      modifies this`rounds, rounds.Values
      ensures Valid() && r.key in rounds && round == rounds[r.key]
      ensures rounds.Values <= old(rounds.Values) + {round}
      ensures forall k | k in old(rounds) :: k in rounds && rounds[k] == old(rounds[k])
      ensures round !in old(rounds.Values) ==> fresh(round)
      ensures Value() == Joined(old(Value()), w, r)
    {
      if r.key in rounds {
        round := rounds[r.key];
      } else {
        round := new RoundState(r.key);
        rounds := rounds[r.key := round];
      }
      round.waitingReceivers := round.waitingReceivers + 1;
      round.submissions := round.submissions[w := r.group];
    }

    /** The checks on request i, against the state the earlier requests of the batch left behind. */
    method CheckRequest(cfg: Config, w: Worker, rs: seq<Request>, i: nat) returns (rejection: Option<Rejection>)
      requires Valid() && i < |rs|
      ensures rejection == RejectionOf(cfg, Value(), w, rs, i)
    {
      var k := rs[i].key;
      if k.round == 0 || !cfg.wellFormed(rs[i].group) {
        return Some(Malformed);
      }
      if k in Keys(rs[..i]) {
        return Some(RepeatedInBatch);
      }
      if k.id in completed && k.round <= completed[k.id] {
        return Some(Stale);
      }
      if k in rounds && w in rounds[k].submissions {
        return Some(if rounds[k].submissions[w] == rs[i].group then DuplicateSubmission else ConflictingSubmission);
      }
      return None;
    }

    /** The first requests of the batch were accepted and have joined their rounds. */
    ghost predicate HaveJoined(cfg: Config, before: Service, w: Worker, rs: seq<Request>, admitted: seq<RoundState>)
      reads this, rounds.Values
    {
      && Valid() && |admitted| <= |rs|
      && AcceptedUpTo(cfg, before, w, rs, |admitted|)
      && Value() == Inserted(before, w, rs[..|admitted|])
      && Matches(rs[..|admitted|], admitted)
    }

    method JoinNext(cfg: Config, ghost before: Service, w: Worker, rs: seq<Request>, admitted: seq<RoundState>)
      returns (round: RoundState)
      requires |admitted| < |rs| && HaveJoined(cfg, before, w, rs, admitted)
      requires RejectionOf(cfg, before, w, rs, |admitted|).None?
      modifies this`rounds, rounds.Values
      ensures HaveJoined(cfg, before, w, rs, admitted + [round])
      ensures forall o | o in rounds.Values :: o in old(rounds.Values) || fresh(o)
    {
      AcceptedNext(cfg, before, w, rs, |admitted|);
      ghost var earlier := rounds;
      round := JoinRound(w, rs[|admitted|]);
      MatchesNext(rs, earlier, rounds, admitted);
    }

    /** The first loop of the registration: requests join their rounds until one is rejected. */
    method JoinRounds(cfg: Config, w: Worker, rs: seq<Request>)
      returns (admitted: seq<RoundState>, rejection: Option<Rejection>)
      requires Valid()
      modifies this`rounds, rounds.Values
      ensures HaveJoined(cfg, old(Value()), w, rs, admitted)
      ensures forall o | o in rounds.Values :: o in old(rounds.Values) || fresh(o)
      ensures rejection.None? <==> |admitted| == |rs|
      ensures rejection.Some? ==> rejection == RejectionOf(cfg, old(Value()), w, rs, |admitted|)
    {
      admitted, rejection := [], None;
      ghost var before := Value();
      assert Inserted(before, w, rs[..0]).rounds == before.rounds;
      while |admitted| < |rs|
        invariant HaveJoined(cfg, before, w, rs, admitted) && rejection.None?
        invariant forall o | o in rounds.Values :: o in old(rounds.Values) || fresh(o)
        decreases |rs| - |admitted|
      {
        rejection := CheckRequest(cfg, w, rs, |admitted|);
        RejectionLater(cfg, before, w, rs, |admitted|);
        if rejection.Some? {
          return;
        }
        var round := JoinNext(cfg, before, w, rs, admitted);
        admitted := admitted + [round];
      }
    }

    /** The slice of round objects belongs to the requests, one by one. */
    ghost predicate Matches(rs: seq<Request>, batch: seq<RoundState>)
      reads this
    {
      MatchesIn(rounds, rs, batch)
    }

    /** Registration of a batch of groups under the mutex. */
    method RegisterGroupSubmissions(cfg: Config, w: Worker, rs: seq<Request>)
      returns (admitted: seq<RoundState>, rejection: Option<Rejection>)
      requires Valid()
      modifies this`rounds, rounds.Values
      ensures Valid()
      ensures Value() == Registered(cfg, old(Value()), w, rs)
      ensures var n := Accepted(cfg, old(Value()), w, rs);
              && rejection == (if n == |rs| then None else RejectionOf(cfg, old(Value()), w, rs, n))
              && (rejection.None? ==> Matches(rs, admitted))
    {
      ghost var before := Value();
      admitted, rejection := JoinRounds(cfg, w, rs);
      AcceptedIs(cfg, before, w, rs, |admitted|, 0);
      if rejection.None? {
        assert rs[..|admitted|] == rs;
        assert rs[..|rs|] == rs;
        AverageFullRounds(cfg, rs, admitted);
      }
    }

    method AverageRound(cfg: Config, round: RoundState)
      requires Valid() && round.key in rounds && rounds[round.key] == round
      modifies round
      ensures Value() == old(Value()).(rounds := old(Value()).rounds[round.key := Settle(cfg, old(Value()).rounds[round.key])])
    {
      if |round.submissions| == |cfg.workers| && round.response.None? && round.err.None? {
        match cfg.average(round.submissions) {
          case Average(g) => round.response := Some(g);
          case Failure(m) => round.err := Some(m);
        }
      }
    }

    /** The second loop of the registration: rounds of the batch that are full are averaged. */
    method AverageFullRounds(cfg: Config, rs: seq<Request>, batch: seq<RoundState>)
      requires Valid() && Matches(rs, batch)
      modifies batch
      ensures Valid() && Value() == Settled(cfg, old(Value()), Keys(rs))
    {
      ghost var before := Value();
      var i := 0;
      assert Settled(cfg, before, Keys(rs[..0])).rounds == before.rounds;
      while i < |batch|
        invariant 0 <= i <= |batch| && Valid()
        invariant Value() == Settled(cfg, before, Keys(rs[..i]))
      {
        KeysOfPrefix(rs, i);
        SettledNext(cfg, before, Keys(rs[..i]), rs[i].key);
        AverageRound(cfg, batch[i]);
        i := i + 1;
      }
      assert rs[..|rs|] == rs;
    }

    /** One receiver leaves its round. */
    method Leave(round: RoundState)
      requires Valid() && round.key in rounds && rounds[round.key] == round
      modifies this, round
      ensures Valid() && Value() == Released(old(Value()), round.key)
      ensures forall k | k in old(rounds) && k != round.key :: k in rounds && rounds[k] == old(rounds[k])
    {
      ghost var before := Value();
      round.waitingReceivers := round.waitingReceivers - 1;
      if round.waitingReceivers == 0 && round.response.Some? {
        completed := completed[round.key.id := round.key.round];
        rounds := rounds - {round.key};
      }
      assert Value().rounds == Released(before, round.key).rounds;
    }

    /** Every round of the slice is in the map, and none occurs twice. */
    ghost predicate Holds(held: seq<RoundState>)
      reads this
    {
      && (forall i | 0 <= i < |held| :: held[i].key in rounds && rounds[held[i].key] == held[i])
      && (forall i, j | 0 <= i < j < |held| :: held[i].key != held[j].key)
    }

    /** The responses in order, or the first error and no response. */
    method CollectResponses(held: seq<RoundState>) returns (ordered: seq<Group>, err: Option<string>)
      requires Valid() && Holds(held)
      requires forall i | 0 <= i < |held| :: held[i].Value().Ready()
      ensures err.None? <==> forall i | 0 <= i < |held| :: held[i].err.None?
      ensures err.None? ==> |ordered| == |held| && forall i | 0 <= i < |held| :: held[i].response == Some(ordered[i])
      ensures err.Some? ==> ordered == [] && err == FirstError(Value(), KeysOf(held))
    {
      ordered := [];
      for i := 0 to |held|
        invariant |ordered| == i
        invariant forall j | 0 <= j < i :: held[j].err.None? && held[j].response == Some(ordered[j])
      {
        if held[i].err.Some? {
          FirstErrorAt(Value(), KeysOf(held), i);
          return [], held[i].err;
        }
        ordered := ordered + [held[i].response.value];
      }
      return ordered, None;
    }

    /** The unary delivery, after the wait loop has found every round ready. Whatever it returns, the
        call leaves all its rounds. */
    method AwaitGroupRounds(held: seq<RoundState>) returns (ordered: seq<Group>, err: Option<string>)
      requires Valid() && Holds(held)
      requires forall i | 0 <= i < |held| :: held[i].Value().Ready()
      modifies this, held
      ensures Valid()
      ensures Releasable(old(Value()), KeysOf(held))
      ensures Value() == ReleasedAll(old(Value()), KeysOf(held))
      ensures err.None? <==> forall i | 0 <= i < |held| :: old(held[i].err).None?
      ensures err.None? ==> |ordered| == |held| && forall i | 0 <= i < |held| :: old(held[i].response) == Some(ordered[i])
      ensures err.Some? ==> ordered == [] && err == FirstError(old(Value()), KeysOf(held))
    {
      ordered, err := CollectResponses(held);
      LeaveAll(held);
    }

    /** Also what a failed streaming call does with the rounds it has not left yet. */
    method LeaveAll(held: seq<RoundState>)
      requires Valid() && Holds(held)
      modifies this, held
      ensures Valid()
      ensures Releasable(old(Value()), KeysOf(held))
      ensures Value() == ReleasedAll(old(Value()), KeysOf(held))
    {
      ghost var before := Value();
      ghost var order := KeysOf(held);
      assert Releasable(before, order);
      var i := 0;
      while i < |held|
        invariant 0 <= i <= |held| && Valid() && Holds(held[i..])
        invariant Releasable(Value(), order[i..])
        invariant ReleasedAll(Value(), order[i..]) == ReleasedAll(before, order)
      {
        ReleasedNext(Value(), order, i);
        assert held[i] == held[i..][0];
        Leave(held[i]);
        assert held[i+1..] == held[i..][1..];
        i := i + 1;
      }
    }

    method AnyReceivers() returns (waiters: bool)
      requires Valid()
      ensures waiters <==> HasReceivers(Value())
    {
      waiters := false;
      var todo := rounds.Keys;
      while todo != {} && !waiters
        invariant todo <= rounds.Keys
        invariant waiters ==> HasReceivers(Value())
        invariant !waiters ==> forall k | k in rounds.Keys - todo :: Value().rounds[k].waiting <= 0
        decreases |todo|, if waiters then 0 else 1
      {
        var k :| k in todo;
        assert Value().rounds[k].waiting == rounds[k].waitingReceivers;
        waiters := rounds[k].waitingReceivers > 0;
        todo := todo - {k};
      }
    }

    method FailRounds(reason: string)
      requires Valid()
      modifies rounds.Values
      ensures Valid()
      ensures Value().completed == old(Value()).completed && Value().rounds.Keys == old(Value()).rounds.Keys
      ensures forall k | k in Value().rounds :: Value().rounds[k] == old(Value()).rounds[k].(err := Some(reason))
    {
      ghost var before := Value();
      var todo := rounds.Keys;
      while todo != {}
        invariant todo <= rounds.Keys && Valid()
        invariant forall k | k in rounds ::
          rounds[k].Value() == if k in todo then before.rounds[k] else before.rounds[k].(err := Some(reason))
        decreases |todo|
      {
        var k :| k in todo;
        rounds[k].err := Some(reason);
        todo := todo - {k};
      }
    }

    /** Every open round gets the error, unless nobody waits: then all rounds are forgotten. */
    method AbortJob(reason: string)
      requires Valid()
      modifies this, rounds.Values
      ensures Valid() && Value() == Aborted(old(Value()), reason)
    {
      ghost var before := Value();
      var waiters := AnyReceivers();
      if waiters {
        FailRounds(reason);
        assert Value().rounds == Aborted(before, reason).rounds;
      } else {
        rounds, completed := map[], map[];
        assert Value().rounds == map[];
      }
    }
  }

  ghost predicate MatchesIn(rounds: map<Key, RoundState>, rs: seq<Request>, batch: seq<RoundState>) {
    && |batch| == |rs|
    && forall i | 0 <= i < |rs| :: rs[i].key in rounds && batch[i] == rounds[rs[i].key]
  }

  ghost function KeysOf(held: seq<RoundState>): seq<Key> {
    seq(|held|, i requires 0 <= i < |held| => held[i].key)
  }

  lemma SettledNext(cfg: Config, s: Service, ks: set<Key>, k: Key)
    requires k in s.rounds
    ensures var before := Settled(cfg, s, ks);
            Settled(cfg, s, ks + {k}) == before.(rounds := before.rounds[k := Settle(cfg, before.rounds[k])])
  {
    var before := Settled(cfg, s, ks);
    assert Settled(cfg, s, ks + {k}).rounds == before.rounds[k := Settle(cfg, before.rounds[k])];
  }

  lemma {:induction false} AcceptedIs(cfg: Config, s: Service, w: Worker, rs: seq<Request>, n: nat, from: nat)
    requires from <= n <= |rs| && AcceptedUpTo(cfg, s, w, rs, n)
    requires n < |rs| ==> RejectionOf(cfg, s, w, rs, n).Some?
    ensures Accepted(cfg, s, w, rs, from) == n
    decreases n - from
  {
    if from < n {
      AcceptedIs(cfg, s, w, rs, n, from + 1);
    }
  }

  lemma AcceptedNext(cfg: Config, s: Service, w: Worker, rs: seq<Request>, i: nat)
    requires i < |rs| && AcceptedUpTo(cfg, s, w, rs, i) && RejectionOf(cfg, s, w, rs, i).None?
    ensures AcceptedUpTo(cfg, s, w, rs, i + 1)
    ensures Inserted(s, w, rs[..i+1]) == Joined(Inserted(s, w, rs[..i]), w, rs[i])
  {
    AcceptedDistinct(cfg, s, w, rs, i + 1);
    InsertedNext(s, w, rs, i);
  }

  lemma MatchesNext(rs: seq<Request>, earlier: map<Key, RoundState>, later: map<Key, RoundState>,
                    batch: seq<RoundState>)
    requires |batch| < |rs| && MatchesIn(earlier, rs[..|batch|], batch)
    requires forall k | k in earlier :: k in later && later[k] == earlier[k]
    requires rs[|batch|].key in later
    ensures MatchesIn(later, rs[..|batch|+1], batch + [later[rs[|batch|].key]])
  {
    forall j | 0 <= j < |batch| ensures rs[j].key in later && batch[j] == later[rs[j].key] {
      assert rs[..|batch|][j] == rs[j];
    }
  }
}
