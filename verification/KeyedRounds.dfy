/** The keyed barrier of the Master: one round per key, opened by the first Worker that submits it
    and deleted when the last receiver has left. Chunk rounds and group rounds follow the same
    protocol: `id` is the layer key of a chunk or the identity key of a group.

    Each function below is one critical section (what happens between taking the mutex and
    releasing it), as a function from the old service state to the new one. */
module KeyedRounds {
  import opened Wrappers
  import opened Gradients

  type Worker = string

  datatype Key = Key(id: string, round: nat)

  datatype Request = Request(key: Key, group: Group)

  datatype Outcome = Average(response: Group) | Failure(message: string)

  /** The job: its assigned Workers, the checks on a single group, and the averaging of a full round. */
  datatype Config = Config(
    workers: set<Worker>,
    wellFormed: Group -> bool,
    average: map<Worker, Group> -> Outcome)

  datatype Round = Round(
    submissions: map<Worker, Group>,
    response: Option<Group>,
    err: Option<string>,
    waiting: int)
  {
    predicate Ready() { response.Some? || err.Some? }
  }

  datatype Service = Service(rounds: map<Key, Round>, completed: map<string, nat>)

  datatype Rejection = Malformed | RepeatedInBatch | Stale | DuplicateSubmission | ConflictingSubmission

  // ---------- registration ----------

  function Keys(rs: seq<Request>): set<Key> {
    set r | r in rs :: r.key
  }

  predicate DistinctKeys(rs: seq<Request>) {
    forall i, j | 0 <= i < j < |rs| :: rs[i].key != rs[j].key
  }

  /** The checks on request i of a batch, in the order in which they are made. */
  function RejectionOf(cfg: Config, s: Service, w: Worker, rs: seq<Request>, i: nat): Option<Rejection>
    requires i < |rs|
  {
    var k := rs[i].key;
    if k.round == 0 || !cfg.wellFormed(rs[i].group) then Some(Malformed)
    else if k in Keys(rs[..i]) then Some(RepeatedInBatch)
    else if k.id in s.completed && k.round <= s.completed[k.id] then Some(Stale)
    else if k in s.rounds && w in s.rounds[k].submissions then
      Some(if s.rounds[k].submissions[w] == rs[i].group then DuplicateSubmission else ConflictingSubmission)
    else None
  }

  predicate AcceptedUpTo(cfg: Config, s: Service, w: Worker, rs: seq<Request>, n: nat)
    requires n <= |rs|
  {
    forall i: nat | i < n :: RejectionOf(cfg, s, w, rs, i).None?
  }

  /** How many leading requests are accepted before the first rejected one. */
  function Accepted(cfg: Config, s: Service, w: Worker, rs: seq<Request>, from: nat := 0): (n: nat)
    requires from <= |rs|
    ensures from <= n <= |rs|
    ensures forall i: nat | from <= i < n :: RejectionOf(cfg, s, w, rs, i).None?
    ensures n < |rs| ==> RejectionOf(cfg, s, w, rs, n).Some?
    decreases |rs| - from
  {
    if from == |rs| || RejectionOf(cfg, s, w, rs, from).Some? then from
    else Accepted(cfg, s, w, rs, from + 1)
  }

  function GroupFor(rs: seq<Request>, k: Key): Group
    requires k in Keys(rs)
  {
    if rs[0].key == k then rs[0].group else GroupFor(rs[1..], k)
  }

  function Lookup(s: Service, k: Key): Round {
    if k in s.rounds then s.rounds[k] else Round(map[], None, None, 0)
  }

  function Join(r: Round, w: Worker, g: Group): Round {
    r.(submissions := r.submissions[w := g], waiting := r.waiting + 1)
  }

  function Joined(s: Service, w: Worker, r: Request): Service {
    s.(rounds := s.rounds[r.key := Join(Lookup(s, r.key), w, r.group)])
  }

  /** Every key of the batch gains the Worker's submission and one waiting receiver. */
  function Inserted(s: Service, w: Worker, rs: seq<Request>): Service {
    s.(rounds := map k | k in s.rounds.Keys + Keys(rs) ::
        if k in Keys(rs) then Join(Lookup(s, k), w, GroupFor(rs, k)) else s.rounds[k])
  }

  function Settle(cfg: Config, r: Round): Round {
    if |r.submissions| == |cfg.workers| && !r.Ready() then
      match cfg.average(r.submissions)
      case Average(g) => r.(response := Some(g))
      case Failure(m) => r.(err := Some(m))
    else r
  }

  /** Rounds of the batch that became full are averaged. */
  function Settled(cfg: Config, s: Service, ks: set<Key>): Service {
    s.(rounds := map k | k in s.rounds :: if k in ks then Settle(cfg, s.rounds[k]) else s.rounds[k])
  }

  /** Registration of a whole batch. A batch rejected part-way keeps what was accepted before the
      rejected request, and averages nothing. */
  function Registered(cfg: Config, s: Service, w: Worker, rs: seq<Request>): Service {
    var n := Accepted(cfg, s, w, rs);
    var inserted := Inserted(s, w, rs[..n]);
    if n == |rs| then Settled(cfg, inserted, Keys(rs)) else inserted
  }

  // ---------- delivery ----------

  /** One receiver leaves a round; the last one to leave a round with a response completes it. */
  function Released(s: Service, k: Key): Service
    requires k in s.rounds
  {
    var r := s.rounds[k].(waiting := s.rounds[k].waiting - 1);
    if r.waiting == 0 && r.response.Some? then
      Service(s.rounds - {k}, s.completed[k.id := k.round])
    else s.(rounds := s.rounds[k := r])
  }

  predicate Releasable(s: Service, order: seq<Key>) {
    && (forall k | k in order :: k in s.rounds)
    && (forall i, j | 0 <= i < j < |order| :: order[i] != order[j])
  }

  function ReleasedAll(s: Service, order: seq<Key>): Service
    requires Releasable(s, order)
    decreases order
  {
    if order == [] then s
    else
      assert forall k | k in order[1..] :: k in order && k != order[0];
      ReleasedAll(Released(s, order[0]), order[1..])
  }

  /** The error that the delivery loop runs into first, going through the rounds in order. */
  function FirstError(s: Service, order: seq<Key>): (err: Option<string>)
    requires forall k | k in order :: k in s.rounds
    ensures err.None? <==> forall k | k in order :: s.rounds[k].err.None?
    ensures err.Some? ==> exists k | k in order :: s.rounds[k].err == err
  {
    if order == [] then None
    else
      assert forall k | k in order[1..] :: k in order;
      assert forall k | k in order :: k == order[0] || k in order[1..];
      if s.rounds[order[0]].err.Some? then s.rounds[order[0]].err else FirstError(s, order[1..])
  }

  lemma {:induction false} FirstErrorAt(s: Service, order: seq<Key>, i: nat)
    requires forall k | k in order :: k in s.rounds
    requires i < |order| && s.rounds[order[i]].err.Some?
    requires forall j | 0 <= j < i :: s.rounds[order[j]].err.None?
    ensures FirstError(s, order) == s.rounds[order[i]].err
  {
    if i > 0 {
      assert s.rounds[order[0]].err.None?;
      assert forall k | k in order[1..] :: k in order;
      FirstErrorAt(s, order[1..], i - 1);
    }
  }

  // ---------- abort ----------

  predicate HasReceivers(s: Service) {
    exists k | k in s.rounds :: s.rounds[k].waiting > 0
  }

  function Aborted(s: Service, reason: string): Service {
    if HasReceivers(s) then
      s.(rounds := map k | k in s.rounds :: s.rounds[k].(err := Some(reason)))
    else Service(map[], map[])
  }

  /** What Worker w sent under k is still open, or the layer or group has got at least as far. */
  predicate Kept(s: Service, w: Worker, k: Key) {
    || (k in s.rounds && w in s.rounds[k].submissions)
    || (k.id in s.completed && k.round <= s.completed[k.id])
  }

  // ---------- facts about one section ----------

  /** Rounds that are not completed keep everything but their count. */
  lemma {:induction false} ReleasedKeeps(s: Service, order: seq<Key>)
    requires Releasable(s, order)
    ensures var after := ReleasedAll(s, order);
            forall k | k in after.rounds :: k in s.rounds && after.rounds[k] == s.rounds[k].(waiting := after.rounds[k].waiting)
    decreases order
  {
    if order != [] {
      assert forall k | k in order[1..] :: k in order && k != order[0];
      ReleasedKeeps(Released(s, order[0]), order[1..]);
    }
  }

  lemma KeysOfPrefix(rs: seq<Request>, n: nat)
    requires n < |rs|
    ensures Keys(rs[..n+1]) == Keys(rs[..n]) + {rs[n].key}
  {
    assert rs[..n+1] == rs[..n] + [rs[n]];
    forall k | k in Keys(rs[..n]) + {rs[n].key} ensures k in Keys(rs[..n+1]) {
      if k == rs[n].key {
        assert rs[..n+1][n] == rs[n];
      } else {
        var r :| r in rs[..n] && r.key == k;
        assert r in rs[..n+1];
      }
    }
  }

  lemma {:induction false} GroupForKey(rs: seq<Request>, i: nat)
    requires i < |rs|
    requires DistinctKeys(rs)
    ensures rs[i].key in Keys(rs)
    ensures GroupFor(rs, rs[i].key) == rs[i].group
  {
    assert rs[i] in rs;
    if i > 0 {
      assert rs[0].key != rs[i].key;
      assert rs[i] == rs[1..][i-1];
      GroupForKey(rs[1..], i - 1);
    }
  }

  /** Accepted requests have distinct keys. */
  lemma AcceptedDistinct(cfg: Config, s: Service, w: Worker, rs: seq<Request>, n: nat)
    requires n <= |rs| && AcceptedUpTo(cfg, s, w, rs, n)
    ensures DistinctKeys(rs[..n])
  {
    forall i, j | 0 <= i < j < n ensures rs[i].key != rs[j].key {
      assert RejectionOf(cfg, s, w, rs, j).None?;
      assert rs[..j][i] == rs[i];
      assert rs[i].key in Keys(rs[..j]);
    }
  }

  /** An accepted key is neither stale nor already submitted by this Worker. */
  lemma AcceptedKey(cfg: Config, s: Service, w: Worker, rs: seq<Request>, n: nat, k: Key)
    requires n <= |rs| && AcceptedUpTo(cfg, s, w, rs, n)
    requires k in Keys(rs[..n])
    ensures k.round > 0
    ensures k.id in s.completed ==> s.completed[k.id] < k.round
    ensures k in s.rounds ==> w !in s.rounds[k].submissions
  {
    var r :| r in rs[..n] && r.key == k;
    var i :| 0 <= i < n && rs[..n][i] == r;
    assert RejectionOf(cfg, s, w, rs, i).None?;
  }

  lemma GroupForPrefix(rs: seq<Request>, n: nat, k: Key)
    requires n <= |rs| && DistinctKeys(rs)
    requires k in Keys(rs[..n])
    ensures k in Keys(rs) && GroupFor(rs, k) == GroupFor(rs[..n], k)
  {
    var r :| r in rs[..n] && r.key == k;
    var j :| 0 <= j < n && rs[..n][j] == r;
    assert rs[j] == r;
    assert forall i, j | 0 <= i < j < n :: rs[..n][i] == rs[i] && rs[..n][j] == rs[j];
    GroupForKey(rs, j);
    GroupForKey(rs[..n], j);
  }

  lemma NotEarlier(rs: seq<Request>, i: nat)
    requires DistinctKeys(rs) && i < |rs|
    ensures rs[i].key !in Keys(rs[..i])
  {
    forall r | r in rs[..i] ensures r.key != rs[i].key {
      var j :| 0 <= j < i && rs[..i][j] == r;
      assert rs[j].key != rs[i].key;
    }
  }

  /** The last request of a batch with distinct keys. */
  lemma LastRequest(rs: seq<Request>, i: nat)
    requires i < |rs| && DistinctKeys(rs[..i+1])
    ensures Keys(rs[..i+1]) == Keys(rs[..i]) + {rs[i].key} && rs[i].key !in Keys(rs[..i])
    ensures GroupFor(rs[..i+1], rs[i].key) == rs[i].group
    ensures forall k | k in Keys(rs[..i]) :: GroupFor(rs[..i+1], k) == GroupFor(rs[..i], k)
  {
    KeysOfPrefix(rs, i);
    assert rs[..i+1][i] == rs[i] && rs[..i+1][..i] == rs[..i];
    NotEarlier(rs[..i+1], i);
    GroupForKey(rs[..i+1], i);
    forall k | k in Keys(rs[..i]) ensures GroupFor(rs[..i+1], k) == GroupFor(rs[..i], k) {
      GroupForPrefix(rs[..i+1], i, k);
    }
  }

  /** Inserting a batch is inserting its requests one after another. */
  lemma InsertedNext(s: Service, w: Worker, rs: seq<Request>, i: nat)
    requires i < |rs| && DistinctKeys(rs[..i+1])
    ensures Inserted(s, w, rs[..i+1]) == Joined(Inserted(s, w, rs[..i]), w, rs[i])
  {
    LastRequest(rs, i);
    assert Inserted(s, w, rs[..i+1]).rounds == Joined(Inserted(s, w, rs[..i]), w, rs[i]).rounds;
  }

  /** A batch adds its Worker to the submissions of its keys and touches no other round. */
  lemma SentSubmissions(cfg: Config, s: Service, w: Worker, rs: seq<Request>, k: Key)
    ensures var after := Settled(cfg, Inserted(s, w, rs), Keys(rs));
            && (k in after.rounds <==> k in s.rounds || k in Keys(rs))
            && (k in Keys(rs) ==> after.rounds[k].submissions.Keys == Lookup(s, k).submissions.Keys + {w})
            && (k in s.rounds && k !in Keys(rs) ==> after.rounds[k] == s.rounds[k])
  {
    var inserted := Inserted(s, w, rs);
    assert k in inserted.rounds <==> k in s.rounds || k in Keys(rs);
    if k in Keys(rs) {
      assert inserted.rounds[k] == Join(Lookup(s, k), w, GroupFor(rs, k));
      SettledSubmissions(cfg, inserted, Keys(rs), k);
    }
  }

  lemma SettledSubmissions(cfg: Config, s: Service, ks: set<Key>, k: Key)
    requires k in s.rounds
    ensures k in Settled(cfg, s, ks).rounds && Settled(cfg, s, ks).rounds[k].submissions == s.rounds[k].submissions
  {
  }

  /** The checks on request i see the same thing before and after the earlier requests were inserted. */
  lemma RejectionLater(cfg: Config, s: Service, w: Worker, rs: seq<Request>, i: nat)
    requires i < |rs|
    ensures RejectionOf(cfg, Inserted(s, w, rs[..i]), w, rs, i) == RejectionOf(cfg, s, w, rs, i)
  {
  }

  lemma InsertedRequest(cfg: Config, s: Service, w: Worker, rs: seq<Request>, i: nat)
    requires AcceptedUpTo(cfg, s, w, rs, |rs|) && i < |rs|
    ensures var k := rs[i].key;
            && k in Inserted(s, w, rs).rounds && w in Inserted(s, w, rs).rounds[k].submissions
            && Inserted(s, w, rs).rounds[k].submissions[w] == rs[i].group
  {
    assert rs[..|rs|] == rs;
    AcceptedDistinct(cfg, s, w, rs, |rs|);
    GroupForKey(rs, i);
  }

  /** A Worker that sends a key again right after it was accepted is told so: as a duplicate if the group is the same,
      as a conflict if it is another one. */
  lemma ResentRefused(cfg: Config, s: Service, w: Worker, rs: seq<Request>, i: nat, again: seq<Request>, j: nat)
    requires i < Accepted(cfg, s, w, rs) && j < |again| && again[j].key == rs[i].key
    requires cfg.wellFormed(again[j].group) && again[j].key !in Keys(again[..j])
    ensures RejectionOf(cfg, Registered(cfg, s, w, rs), w, again, j)
         == Some(if again[j].group == rs[i].group then DuplicateSubmission else ConflictingSubmission)
  {
    var n := Accepted(cfg, s, w, rs);
    var prefix := rs[..n];
    assert n == |rs| ==> prefix == rs;
    forall h: nat | h < n ensures RejectionOf(cfg, s, w, prefix, h).None? {
      assert RejectionOf(cfg, s, w, rs, h).None? && prefix[..h] == rs[..h];
    }
    assert RejectionOf(cfg, s, w, rs, i).None?;
    InsertedRequest(cfg, s, w, prefix, i);
    SettledSubmissions(cfg, Inserted(s, w, prefix), Keys(rs), rs[i].key);
  }
}
