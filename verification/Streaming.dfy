/** Streaming delivery: one call hands out the responses of its rounds as they become ready. The mutex is given up
    while a response is emitted and while the call sleeps; what the other calls do meanwhile is the parameter `world`. */
module Streaming {
  import opened Wrappers
  import opened Gradients
  import opened Averaging
  import opened KeyedRounds

  datatype Status = Status(response: Option<Group>, err: Option<string>) {
    predicate Ready() { response.Some? || err.Some? }
  }

  /** What the call sees of a round whenever it holds the mutex for the t-th time. */
  type World = (nat, Key) -> Status

  const EMIT_FAILED := "the response could not be emitted"

  /** The time is the one at which the response was read, just before the mutex was given up to emit it. */
  datatype Emission = Emission(key: Key, response: Group, time: nat)

  /** The call goes to sleep holding these rounds. */
  datatype Nap = Nap(time: nat, remaining: set<Key>)

  ghost predicate NothingReady(world: World, nap: Nap) {
    forall k | k in nap.remaining :: !world(nap.time, k).Ready()
  }

  /** A round that had its response and no error when it was read. */
  predicate Answered(world: World, e: Emission) {
    world(e.time, e.key) == Status(Some(e.response), None)
  }

  /** The receiver got the response. */
  predicate Delivered(world: World, emitFails: nat -> bool, e: Emission) {
    Answered(world, e) && !emitFails(e.time)
  }

  /** What was emitted so far: distinct rounds that the call no longer holds, each with its own response. */
  ghost predicate EmittedSoFar(world: World, emitFails: nat -> bool, rounds: set<Key>, remaining: set<Key>,
                               emitted: seq<Emission>)
  {
    && remaining <= rounds
    && (forall i, j | 0 <= i < j < |emitted| :: emitted[i].key != emitted[j].key)
    && (forall i | 0 <= i < |emitted| ::
          emitted[i].key in rounds && emitted[i].key !in remaining && Delivered(world, emitFails, emitted[i]))
  }

  /** Everything was emitted before this time. */
  predicate Before(emitted: seq<Emission>, time: nat) {
    forall i | 0 <= i < |emitted| :: emitted[i].time < time
  }

  /** An error has a cause: a round that the call still held showed it, or the last response could not be emitted. */
  ghost predicate Caused(world: World, emitFails: nat -> bool, rounds: set<Key>, emitted: seq<Emission>, err: string) {
    || (exists t: nat, k :: ShowsError(world, rounds, emitted, t, k, err))
    || (err == EMIT_FAILED && exists e :: FailedToEmit(world, emitFails, rounds, emitted, e))
  }

  predicate ShowsError(world: World, rounds: set<Key>, emitted: seq<Emission>, t: nat, k: Key, err: string) {
    k in rounds && world(t, k).err == Some(err) && Before(emitted, t)
  }

  predicate FailedToEmit(world: World, emitFails: nat -> bool, rounds: set<Key>, emitted: seq<Emission>, e: Emission) {
    && e.key in rounds && Answered(world, e) && emitFails(e.time) && Before(emitted, e.time)
    && forall i | 0 <= i < |emitted| :: emitted[i].key != e.key
  }

  ghost predicate AllEmitted(rounds: set<Key>, remaining: set<Key>, emitted: seq<Emission>) {
    forall k | k in rounds && k !in remaining :: exists i :: 0 <= i < |emitted| && emitted[i].key == k
  }

  ghost predicate ReleasedSoFar(rounds: set<Key>, remaining: set<Key>, released: seq<Key>) {
    && (forall i, j | 0 <= i < j < |released| :: released[i] != released[j])
    && (forall k :: k in released <==> k in rounds && k !in remaining)
  }

  /** Every sleep began with no ready round among those that were held, and these only became fewer. */
  ghost predicate NapsJustified(world: World, naps: seq<Nap>, remaining: set<Key>) {
    forall i | 0 <= i < |naps| :: NothingReady(world, naps[i]) && remaining <= naps[i].remaining && naps[i].time >= i
  }

  /** Every round that is still held is left. */
  method ReleaseAll(rounds: set<Key>, remaining: set<Key>, released: seq<Key>) returns (all: seq<Key>)
    requires remaining <= rounds && ReleasedSoFar(rounds, remaining, released)
    ensures ReleasedSoFar(rounds, {}, all) && released <= all
  {
    all := released;
    var rest := remaining;
    while rest != {}
      invariant rest <= remaining && ReleasedSoFar(rounds, rest, all) && released <= all
      decreases |rest|
    {
      var k := Any(rest);
      rest := rest - {k};
      all := all + [k];
    }
  }

  datatype Pass = Pass(remaining: set<Key>, time: nat, progressed: bool, emitted: seq<Emission>, released: seq<Key>)

  /** One pass over the rounds that are held, in any order. If nothing was emitted, the mutex was never given up and no
      round is ready. */
  method OnePass(world: World, emitFails: nat -> bool, rounds: set<Key>, p: Pass) returns (q: Pass, err: Option<string>)
    requires EmittedSoFar(world, emitFails, rounds, p.remaining, p.emitted) && AllEmitted(rounds, p.remaining, p.emitted)
    requires ReleasedSoFar(rounds, p.remaining, p.released) && Before(p.emitted, p.time)
    ensures q.remaining <= p.remaining && q.time >= p.time
    ensures EmittedSoFar(world, emitFails, rounds, q.remaining, q.emitted) && Before(q.emitted, q.time)
    ensures ReleasedSoFar(rounds, q.remaining, q.released)
    ensures err.None? ==> AllEmitted(rounds, q.remaining, q.emitted)
    ensures err.None? && !q.progressed ==>
              q.remaining == p.remaining && q.time == p.time && NothingReady(world, Nap(p.time, p.remaining))
    ensures err.None? && q.progressed ==> q.remaining < p.remaining
    ensures err.Some? ==> Caused(world, emitFails, rounds, q.emitted, err.value)
  {
    q := p.(progressed := false);
    err := None;
    var pass := p.remaining;
    while pass != {}
      invariant pass <= q.remaining <= p.remaining && q.time >= p.time
      invariant EmittedSoFar(world, emitFails, rounds, q.remaining, q.emitted) && Before(q.emitted, q.time)
      invariant AllEmitted(rounds, q.remaining, q.emitted)
      invariant ReleasedSoFar(rounds, q.remaining, q.released)
      invariant !q.progressed ==> q.remaining == p.remaining && q.time == p.time
      invariant !q.progressed ==> forall k | k in p.remaining && k !in pass :: !world(p.time, k).Ready()
      invariant q.progressed ==> q.remaining < p.remaining
      decreases |pass|
    {
      var k := Any(pass);
      pass := pass - {k};
      var status := world(q.time, k);
      if status.err.Some? {
        assert ShowsError(world, rounds, q.emitted, q.time, k, status.err.value);
        err := status.err;
        return;
      }
      if status.response.Some? {
        var e := Emission(k, status.response.value, q.time);
        EmitOne(world, emitFails, rounds, q, e);
        q := q.(remaining := q.remaining - {k}, released := q.released + [k], time := q.time + 1, progressed := true);
        if emitFails(e.time) {
          assert FailedToEmit(world, emitFails, rounds, q.emitted, e);
          err := Some(EMIT_FAILED);
          return;
        }
        q := q.(emitted := q.emitted + [e]);
      }
    }
  }

  lemma EmitOne(world: World, emitFails: nat -> bool, rounds: set<Key>, q: Pass, e: Emission)
    requires e.key in q.remaining && Answered(world, e) && e.time == q.time && Before(q.emitted, q.time)
    requires EmittedSoFar(world, emitFails, rounds, q.remaining, q.emitted) && AllEmitted(rounds, q.remaining, q.emitted)
    ensures EmittedSoFar(world, emitFails, rounds, q.remaining - {e.key}, q.emitted)
    ensures var more := q.emitted + [e];
            && (!emitFails(e.time) ==> EmittedSoFar(world, emitFails, rounds, q.remaining - {e.key}, more))
            && AllEmitted(rounds, q.remaining - {e.key}, more) && Before(more, q.time + 1)
  {
    var more := q.emitted + [e];
    forall r | r in rounds && r !in q.remaining - {e.key} ensures exists i :: 0 <= i < |more| && more[i].key == r {
      if r == e.key {
        assert more[|q.emitted|].key == r;
      } else {
        var i :| 0 <= i < |q.emitted| && q.emitted[i].key == r;
        assert more[i].key == r;
      }
    }
  }

  /** The first passes of the call, whatever the other calls do meanwhile. At every moment what was emitted is the
      response of as many different rounds; a round is left when it is emitted, and all are left on an error; the
      call never sleeps while a round that it holds has a response or an error. It stops when no round is left. */
  method StreamPasses(world: World, emitFails: nat -> bool, rounds: set<Key>, passes: nat)
    returns (p: Pass, err: Option<string>, ghost naps: seq<Nap>)
    ensures exists held :: EmittedSoFar(world, emitFails, rounds, held, p.emitted) && NapsJustified(world, naps, held)
    ensures err.Some? ==> ReleasedSoFar(rounds, {}, p.released)
    ensures err.Some? ==> Caused(world, emitFails, rounds, p.emitted, err.value)
    ensures err.None? ==>
              && ReleasedSoFar(rounds, p.remaining, p.released)
              && EmittedSoFar(world, emitFails, rounds, p.remaining, p.emitted) && AllEmitted(rounds, p.remaining, p.emitted)
              && NapsJustified(world, naps, p.remaining)
    ensures err.None? && p.remaining != {} ==> passes + |p.remaining| <= |rounds| + |naps|
  {
    p := Pass(rounds, 0, false, [], []);
    naps := [];
    err := None;
    var n := 0;
    while p.remaining != {} && n < passes
      invariant EmittedSoFar(world, emitFails, rounds, p.remaining, p.emitted) && AllEmitted(rounds, p.remaining, p.emitted)
      invariant ReleasedSoFar(rounds, p.remaining, p.released) && NapsJustified(world, naps, p.remaining)
      invariant Before(p.emitted, p.time)
      invariant err.None? && n <= passes && p.time >= |naps| && n + |p.remaining| <= |rounds| + |naps|
    {
      var q;
      q, err := OnePass(world, emitFails, rounds, p);
      if err.Some? {
        var released := ReleaseAll(rounds, q.remaining, q.released);
        assert NapsJustified(world, naps, q.remaining);
        return q.(released := released), err, naps;
      }
      if q.progressed {
        Fewer(q.remaining, p.remaining);
        p := q;
      } else {
        naps := naps + [Nap(q.time, q.remaining)];
        p := q.(time := q.time + 1);
      }
      n := n + 1;
    }
  }

  /** A time from which on the call cannot sleep any more: every round is ready, or one has an error and is never seen
      with a response and no error. */
  ghost predicate EndsBy(world: World, rounds: set<Key>, horizon: nat) {
    || (forall t: nat, k | t >= horizon && k in rounds :: world(t, k).Ready())
    || (exists k | k in rounds :: FailsBy(world, k, horizon))
  }

  ghost predicate FailsBy(world: World, k: Key, horizon: nat) {
    && (forall t: nat | t >= horizon :: world(t, k).err.Some?)
    && (forall t: nat :: world(t, k).err.None? ==> world(t, k).response.None?)
  }

  /** Such a call ends: on success the response of every registered round is emitted exactly once, and with or without
      success every round is left exactly once. */
  method StreamRounds(world: World, emitFails: nat -> bool, rounds: set<Key>, horizon: nat)
    returns (emitted: seq<Emission>, released: seq<Key>, err: Option<string>)
    requires EndsBy(world, rounds, horizon)
    ensures ReleasedSoFar(rounds, {}, released)
    ensures err.None? ==> EmittedSoFar(world, emitFails, rounds, {}, emitted) && AllEmitted(rounds, {}, emitted)
    ensures (exists k | k in rounds :: FailsBy(world, k, horizon)) ==> err.Some?
    ensures err.Some? ==> Caused(world, emitFails, rounds, emitted, err.value)
    ensures (forall t: nat :: !emitFails(t)) && (forall t: nat, k | k in rounds :: world(t, k).err.None?) ==> err.None?
    ensures exists held :: EmittedSoFar(world, emitFails, rounds, held, emitted)
  {
    var p;
    ghost var naps;
    p, err, naps := StreamPasses(world, emitFails, rounds, |rounds| + horizon);
    if err.None? && p.remaining != {} {
      NapsEnd(world, emitFails, rounds, horizon, p, naps);
    }
    forall k | k in rounds && k !in p.remaining && err.None? ensures !FailsBy(world, k, horizon) {
      EmittedNotFailing(world, emitFails, rounds, horizon, p, k);
    }
    return p.emitted, p.released, err;
  }

  /** A round that was emitted had a response and no error. */
  lemma EmittedNotFailing(world: World, emitFails: nat -> bool, rounds: set<Key>, horizon: nat, p: Pass, k: Key)
    requires EmittedSoFar(world, emitFails, rounds, p.remaining, p.emitted) && AllEmitted(rounds, p.remaining, p.emitted)
    requires k in rounds && k !in p.remaining
    ensures !FailsBy(world, k, horizon)
  {
    var i :| 0 <= i < |p.emitted| && p.emitted[i].key == k;
    assert Answered(world, p.emitted[i]);
  }

  /** One of the rounds that are held is ready from the horizon on. */
  lemma HeldAndReady(world: World, emitFails: nat -> bool, rounds: set<Key>, horizon: nat, p: Pass) returns (k: Key)
    requires EndsBy(world, rounds, horizon) && p.remaining != {}
    requires EmittedSoFar(world, emitFails, rounds, p.remaining, p.emitted) && AllEmitted(rounds, p.remaining, p.emitted)
    ensures k in p.remaining && forall t: nat | t >= horizon :: world(t, k).Ready()
  {
    if h :| h in rounds && FailsBy(world, h, horizon) {
      k := h;
      if k !in p.remaining {
        EmittedNotFailing(world, emitFails, rounds, horizon, p, k);
      }
    } else {
      k :| k in p.remaining;
    }
  }

  lemma NapsEnd(world: World, emitFails: nat -> bool, rounds: set<Key>, horizon: nat, p: Pass, naps: seq<Nap>)
    requires EndsBy(world, rounds, horizon) && p.remaining != {}
    requires EmittedSoFar(world, emitFails, rounds, p.remaining, p.emitted) && AllEmitted(rounds, p.remaining, p.emitted)
    requires NapsJustified(world, naps, p.remaining)
    ensures |naps| <= horizon
  {
    if naps != [] {
      var k := HeldAndReady(world, emitFails, rounds, horizon, p);
      var last := naps[|naps| - 1];
      assert NothingReady(world, last) && k in last.remaining;
      assert !world(last.time, k).Ready();
    }
  }

  lemma Fewer(some: set<Key>, all: set<Key>)
    requires some < all
    ensures |some| < |all|
  {
    var k :| k in all && k !in some;
    assert some <= all - {k};
    FewerOrSame(some, all - {k});
  }

  lemma {:induction false} FewerOrSame(some: set<Key>, all: set<Key>)
    requires some <= all
    ensures |some| <= |all|
    decreases |all|
  {
    if some != {} {
      var k :| k in some;
      FewerOrSame(some - {k}, all - {k});
    }
  }
}
