/** Splitting a data set among the Workers. Files are values: an image is its relative path, a JSONL sample its line. */
module Sharding {
  import opened Arithmetic
  import opened Wrappers
  import opened Sums

  datatype Assignment = Assignment(worker: string, start: int, end: int, count: int)

  datatype Error = NoWorkers | TooFewSamples | CouldNotBalance

  datatype Result<+T> = Ok(value: T) | Err(error: Error)

  // ---------- JSONL: contiguous slices ----------

  /** The slice of one Worker; the first ones are larger by one. */
  predicate Slice(a: Assignment, worker: string, base: nat, larger: bool) {
    a.worker == worker && a.end == a.start + a.count - 1 && a.count == base + (if larger then 1 else 0)
  }

  predicate Follows(assignments: seq<Assignment>, i: nat)
    requires i < |assignments|
  {
    assignments[i].start == (if i == 0 then 0 else assignments[i-1].end) + 1
  }

  /** Slices that follow each other without gap or overlap, one per Worker, those of the first `extra` Workers larger
      by one. */
  ghost predicate Sliced(assignments: seq<Assignment>, workers: seq<string>, base: nat, extra: nat) {
    && |assignments| <= |workers|
    && (forall i: nat | i < |assignments| :: Slice(assignments[i], workers[i], base, i < extra))
    && (forall i: nat | i < |assignments| :: Follows(assignments, i))
  }

  /** They cover 1..total, and what does not divide evenly goes to the first Workers, one sample each. */
  ghost predicate Tiles(assignments: seq<Assignment>, total: nat, workers: seq<string>) {
    && |assignments| == |workers| > 0
    && Sliced(assignments, workers, total / |workers|, total % |workers|)
    && assignments[|assignments| - 1].end == total
  }

  function Repeated(n: nat, base: nat): nat {
    if n == 0 then 0 else Repeated(n - 1, base) + base
  }

  lemma {:induction false} RepeatedIs(n: nat, base: nat)
    ensures Repeated(n, base) == n * base
  {
    if n > 0 {
      RepeatedIs(n - 1, base);
      NextProduct(n - 1, base);
    }
  }

  lemma Division(total: nat, n: nat)
    requires n > 0
    ensures total == Repeated(n, total / n) + total % n && total % n < n
  {
    RepeatedIs(n, total / n);
  }

  lemma SlicedNext(assignments: seq<Assignment>, workers: seq<string>, base: nat, extra: nat, a: Assignment)
    requires Sliced(assignments, workers, base, extra) && |assignments| < |workers|
    requires Slice(a, workers[|assignments|], base, |assignments| < extra)
    requires a.start == (if assignments == [] then 0 else assignments[|assignments| - 1].end) + 1
    ensures Sliced(assignments + [a], workers, base, extra)
  {
    var longer := assignments + [a];
    forall i: nat | i < |longer| ensures Follows(longer, i) {
      if i < |assignments| {
        assert Follows(assignments, i);
      }
    }
  }

  method ComputeAssignments(total: nat, workers: seq<string>) returns (assignments: seq<Assignment>)
    requires workers != []
    ensures Tiles(assignments, total, workers)
  {
    var base := total / |workers|;
    var remainder := total % |workers|;
    Division(total, |workers|);
    assignments := [];
    var start := 1;
    for index := 0 to |workers|
      invariant |assignments| == index && Sliced(assignments, workers, base, remainder)
      invariant start == 1 + Repeated(index, base) + (if index < remainder then index else remainder)
      invariant start == (if index == 0 then 0 else assignments[index-1].end) + 1
    {
      var count := base;
      if index < remainder {
        count := count + 1;
      }
      var end := start + count - 1;
      var assignment := Assignment(workers[index], start, end, count);
      SlicedNext(assignments, workers, base, remainder, assignment);
      assignments := assignments + [assignment];
      start := end + 1;
    }
  }

  function Joined(slices: seq<seq<string>>): seq<string> {
    if slices == [] then [] else Joined(slices[..|slices| - 1]) + slices[|slices| - 1]
  }

  /** Every sample goes to one Worker, in order: the slices put together are the data set. */
  method ShardJSONL(samples: seq<string>, workers: seq<string>)
    returns (r: Result<seq<Assignment>>, slices: seq<seq<string>>)
    ensures r == Err(NoWorkers) <==> workers == []
    ensures r == Err(TooFewSamples) <==> workers != [] && |samples| < |workers|
    ensures r.Err? ==> r.error != CouldNotBalance
    ensures r.Ok? ==> Tiles(r.value, |samples|, workers) && Joined(slices) == samples && |slices| == |workers|
    ensures r.Ok? ==> forall i | 0 <= i < |slices| :: |slices[i]| == r.value[i].count
  {
    slices := [];
    if |workers| == 0 {
      return Err(NoWorkers), slices;
    }
    if |samples| < |workers| {
      return Err(TooFewSamples), slices;
    }
    var assignments := ComputeAssignments(|samples|, workers);
    slices := Slices(samples, assignments, workers, |samples| / |workers|, |samples| % |workers|);
    return Ok(assignments), slices;
  }

  /** The slices of the first assignments, one after the other. */
  ghost predicate SlicedUpTo(samples: seq<string>, assignments: seq<Assignment>, n: nat, slices: seq<seq<string>>) {
    && n <= |assignments| && |slices| == n
    && (forall i | 0 <= i < n :: |slices[i]| == assignments[i].count)
    && var cursor := if n == 0 then 0 else assignments[n-1].end;
       0 <= cursor <= |samples| && Joined(slices) == samples[..cursor]
  }

  lemma NextSlice(samples: seq<string>, assignments: seq<Assignment>, n: nat, slices: seq<seq<string>>, cursor: nat)
    requires n < |assignments| && SlicedUpTo(samples, assignments, n, slices) && Follows(assignments, n)
    requires cursor == if n == 0 then 0 else assignments[n-1].end
    requires assignments[n].end == assignments[n].start + assignments[n].count - 1
    requires 0 <= assignments[n].count && assignments[n].end <= |samples|
    ensures SlicedUpTo(samples, assignments, n + 1, slices + [samples[cursor..cursor + assignments[n].count]])
  {
    var end := cursor + assignments[n].count;
    var more := slices + [samples[cursor..end]];
    assert more[..n] == slices;
    assert samples[..cursor] + samples[cursor..end] == samples[..end];
  }

  method Slices(samples: seq<string>, assignments: seq<Assignment>, ghost workers: seq<string>, ghost base: nat,
                ghost extra: nat)
    returns (slices: seq<seq<string>>)
    requires assignments != [] && Sliced(assignments, workers, base, extra) && assignments[|assignments| - 1].end == |samples|
    ensures Joined(slices) == samples && |slices| == |assignments|
    ensures forall i | 0 <= i < |slices| :: |slices[i]| == assignments[i].count
  {
    slices := [];
    var cursor := 0;
    for index := 0 to |assignments|
      invariant cursor == if index == 0 then 0 else assignments[index-1].end
      invariant SlicedUpTo(samples, assignments, index, slices)
    {
      SliceWithin(assignments, workers, base, extra, index);
      NextSlice(samples, assignments, index, slices, cursor);
      var end := cursor + assignments[index].count;
      slices := slices + [samples[cursor..end]];
      cursor := end;
    }
    assert samples[..cursor] == samples;
  }

  /** Where slice i lies. */
  lemma {:induction false} SliceWithin(assignments: seq<Assignment>, workers: seq<string>, base: nat, extra: nat, i: nat)
    requires Sliced(assignments, workers, base, extra) && i < |assignments|
    ensures Follows(assignments, i) && Slice(assignments[i], workers[i], base, i < extra)
    ensures assignments[i].end <= assignments[|assignments| - 1].end
    decreases |assignments| - i
  {
    if i < |assignments| - 1 {
      SliceWithin(assignments, workers, base, extra, i + 1);
    }
  }

  // ---------- image folders: round robin with a quota ----------

  /** The position that is tried at this offset. */
  function Turn(sampleIndex: nat, offset: nat, n: nat): (i: nat)
    requires n > 0
    ensures i < n
  {
    (sampleIndex + offset) % n
  }

  /** The first Worker from the sample's position on whose quota is not used up. */
  method NextImageWorker(workers: seq<string>, counts: map<string, nat>, sampleIndex: nat, target: nat)
    returns (found: Option<string>)
    requires forall w | w in workers :: w in counts
    ensures found.None? <==> forall w | w in workers :: counts[w] >= target
    ensures found.Some? ==> exists offset: nat | offset < |workers| ::
              FirstOpen(workers, counts, sampleIndex, target, offset, found.value)
  {
    for offset := 0 to |workers|
      invariant UsedUp(workers, counts, sampleIndex, target, offset)
    {
      var w := workers[Turn(sampleIndex, offset, |workers|)];
      if counts[w] < target {
        assert FirstOpen(workers, counts, sampleIndex, target, offset, w);
        return Some(w);
      }
    }
    forall w | w in workers ensures counts[w] >= target {
      var i :| 0 <= i < |workers| && workers[i] == w;
      var o := Reached(sampleIndex, |workers|, i);
    }
    return None;
  }

  /** The quotas at the offsets before n are used up. */
  ghost predicate UsedUp(workers: seq<string>, counts: map<string, nat>, sampleIndex: nat, target: nat, n: nat)
    requires n <= |workers| && forall w | w in workers :: w in counts
  {
    forall o: nat | o < n :: counts[workers[Turn(sampleIndex, o, |workers|)]] >= target
  }

  ghost predicate FirstOpen(workers: seq<string>, counts: map<string, nat>, sampleIndex: nat, target: nat, offset: nat, w: string)
    requires offset < |workers| && forall w | w in workers :: w in counts
  {
    && w == workers[Turn(sampleIndex, offset, |workers|)] && counts[w] < target
    && UsedUp(workers, counts, sampleIndex, target, offset)
  }

  /** Every position comes up in one turn around the list. */
  lemma Reached(sampleIndex: nat, n: nat, i: nat) returns (o: nat)
    requires i < n
    ensures o < n && Turn(sampleIndex, o, n) == i
  {
    var q, r := sampleIndex / n, sampleIndex % n;
    if r <= i {
      o := i - r;
      RemainderIs(sampleIndex + o, n, q, i);
    } else {
      o := i - r + n;
      NextProduct(q, n);
      RemainderIs(sampleIndex + o, n, q + 1, i);
    }
  }

  function Flat(classes: seq<seq<string>>): seq<string> {
    if classes == [] then [] else Flat(classes[..|classes| - 1]) + classes[|classes| - 1]
  }

  /** The samples that w owns, in order. */
  function Owned(samples: seq<string>, owners: seq<Option<string>>, w: string): seq<string>
    requires |owners| == |samples|
  {
    if samples == [] then []
    else
      var last := |samples| - 1;
      var before := Owned(samples[..last], owners[..last], w);
      if owners[last] == Some(w) then before + [samples[last]] else before
  }

  function Dropped(owners: seq<Option<string>>): nat {
    if owners == [] then 0
    else Dropped(owners[..|owners| - 1]) + (if owners[|owners| - 1].None? then 1 else 0)
  }

  function Ids(workers: seq<string>): set<string> {
    set w | w in workers
  }

  ghost function Counted(shards: map<string, seq<string>>): string -> int {
    w => if w in shards then |shards[w]| else 0
  }

  /** Every sample so far has one owner or none; a Worker's shard is what it owns, and no quota is exceeded. A sample
      was only dropped when all quotas were used up. */
  ghost predicate Dealt(workers: seq<string>, target: nat, samples: seq<string>, owners: seq<Option<string>>,
                        shards: map<string, seq<string>>)
  {
    && |owners| == |samples|
    && shards.Keys == Ids(workers)
    && (forall w | w in workers :: w in shards && |shards[w]| <= target && shards[w] == Owned(samples, owners, w))
    && Sum(Ids(workers), Counted(shards)) + Dropped(owners) == |samples|
    && (Dropped(owners) > 0 ==> forall w | w in workers :: w in shards && |shards[w]| == target)
  }

  lemma OneMoreCounted(ids: set<string>, shards: map<string, seq<string>>, w: string, sample: string)
    requires w in ids && w in shards
    ensures Sum(ids, Counted(shards[w := shards[w] + [sample]])) == Sum(ids, Counted(shards)) + 1
  {
    var more := shards[w := shards[w] + [sample]];
    SumSplit(ids, Counted(more), w);
    SumSplit(ids, Counted(shards), w);
    SumSame(ids - {w}, Counted(more), Counted(shards));
  }

  lemma DealtTo(workers: seq<string>, target: nat, samples: seq<string>, owners: seq<Option<string>>,
                shards: map<string, seq<string>>, sample: string, w: string)
    requires Dealt(workers, target, samples, owners, shards) && w in workers && |shards[w]| < target
    ensures Dealt(workers, target, samples + [sample], owners + [Some(w)], shards[w := shards[w] + [sample]])
  {
    var more := shards[w := shards[w] + [sample]];
    assert (samples + [sample])[..|samples|] == samples;
    assert (owners + [Some(w)])[..|samples|] == owners;
    OneMoreCounted(Ids(workers), shards, w, sample);
    forall v | v in workers ensures more[v] == Owned(samples + [sample], owners + [Some(w)], v) {
    }
  }

  lemma DealtToNobody(workers: seq<string>, target: nat, samples: seq<string>, owners: seq<Option<string>>,
                      shards: map<string, seq<string>>, sample: string)
    requires Dealt(workers, target, samples, owners, shards)
    requires forall w | w in workers :: w in shards && |shards[w]| >= target
    ensures Dealt(workers, target, samples + [sample], owners + [None], shards)
  {
    assert (samples + [sample])[..|samples|] == samples;
    assert (owners + [None])[..|samples|] == owners;
    forall v | v in workers ensures shards[v] == Owned(samples + [sample], owners + [None], v) {
    }
  }

  lemma {:induction false} IdsSize(workers: seq<string>)
    ensures |Ids(workers)| <= |workers|
    ensures (forall i, j | 0 <= i < j < |workers| :: workers[i] != workers[j]) ==> |Ids(workers)| == |workers|
  {
    if workers != [] {
      var last := |workers| - 1;
      IdsSize(workers[..last]);
      assert workers == workers[..last] + [workers[last]];
      assert Ids(workers) == Ids(workers[..last]) + {workers[last]};
    }
  }

  lemma ProductOrder(a: int, b: int, t: int)
    requires a <= b && t >= 0
    ensures t * a <= t * b
  {
  }

  /** Pigeonhole: with enough samples every quota is used up. */
  lemma AllQuotasUsed(workers: seq<string>, target: nat, samples: seq<string>, owners: seq<Option<string>>,
                      shards: map<string, seq<string>>)
    requires Dealt(workers, target, samples, owners, shards) && |samples| >= target * |workers|
    ensures forall w | w in workers :: |shards[w]| == target
    ensures Dropped(owners) == |samples| - target * |Ids(workers)|
  {
    var ids := Ids(workers);
    IdsSize(workers);
    ProductOrder(|ids|, |workers|, target);
    var full := (w: string) => target as int;
    SumConstant(ids, full, target);
    forall w | w in workers ensures |shards[w]| == target {
      if Dropped(owners) == 0 {
        SumSplit(ids, Counted(shards), w);
        SumSplit(ids, full, w);
        SumBetween(ids - {w}, Counted(shards), full);
      }
    }
    SumSame(ids, Counted(shards), full);
  }

  /** The counters agree with the shards. */
  ghost predicate CountsAgree(counts: map<string, nat>, shards: map<string, seq<string>>) {
    counts.Keys == shards.Keys && forall w | w in shards :: counts[w] == |shards[w]|
  }

  /** The first Worker from this position on that owns less than its quota gets the sample; nobody does if there is
      none. */
  ghost predicate Served(workers: seq<string>, target: nat, samples: seq<string>, owners: seq<Option<string>>,
                         position: nat, owner: Option<string>)
    requires |owners| == |samples|
  {
    match owner
    case None => forall w | w in workers :: |Owned(samples, owners, w)| >= target
    case Some(w) =>
      exists offset: nat | offset < |workers| :: ServedAt(workers, target, samples, owners, position, offset, w)
  }

  ghost predicate ServedAt(workers: seq<string>, target: nat, samples: seq<string>, owners: seq<Option<string>>,
                           position: nat, offset: nat, w: string)
    requires |owners| == |samples| && offset < |workers|
  {
    && w == workers[Turn(position, offset, |workers|)] && |Owned(samples, owners, w)| < target
    && forall o: nat | o < offset :: |Owned(samples, owners, workers[Turn(position, o, |workers|)])| >= target
  }

  /** The position of every sample in its class. */
  function Positions(classes: seq<seq<string>>): seq<nat> {
    if classes == [] then [] else Positions(classes[..|classes| - 1]) + UpTo(|classes[|classes| - 1]|)
  }

  function UpTo(n: nat): (s: seq<nat>)
    ensures |s| == n
  {
    seq(n, i requires 0 <= i < n => i)
  }

  /** Every sample went where it had to go when it was dealt. */
  ghost predicate InTurn(workers: seq<string>, target: nat, samples: seq<string>, owners: seq<Option<string>>,
                         positions: seq<nat>)
  {
    && |samples| == |owners| == |positions|
    && forall i: nat | i < |samples| :: Served(workers, target, samples[..i], owners[..i], positions[i], owners[i])
  }

  lemma InTurnNext(workers: seq<string>, target: nat, samples: seq<string>, owners: seq<Option<string>>,
                   positions: seq<nat>, sample: string, owner: Option<string>, position: nat)
    requires InTurn(workers, target, samples, owners, positions)
    requires Served(workers, target, samples, owners, position, owner)
    ensures InTurn(workers, target, samples + [sample], owners + [owner], positions + [position])
  {
    var n := |samples|;
    forall i: nat | i <= n
      ensures Served(workers, target, (samples + [sample])[..i], (owners + [owner])[..i], (positions + [position])[i],
                     (owners + [owner])[i])
    {
      assert (samples + [sample])[..i] == samples[..i] && (owners + [owner])[..i] == owners[..i];
      if i == n {
        assert samples[..i] == samples && owners[..i] == owners;
      }
    }
  }

  lemma FoundServed(workers: seq<string>, target: nat, counts: map<string, nat>, shards: map<string, seq<string>>,
                    samples: seq<string>, owners: seq<Option<string>>, position: nat, offset: nat, w: string)
    requires Dealt(workers, target, samples, owners, shards) && CountsAgree(counts, shards) && offset < |workers|
    requires FirstOpen(workers, counts, position, target, offset, w)
    ensures Served(workers, target, samples, owners, position, Some(w))
  {
    assert ServedAt(workers, target, samples, owners, position, offset, w);
  }

  /** Where one sample goes. */
  method Deal(workers: seq<string>, target: nat, counts: map<string, nat>, shards: map<string, seq<string>>,
              sampleIndex: nat, sample: string, ghost samples: seq<string>, ghost owners: seq<Option<string>>)
    returns (moreCounts: map<string, nat>, more: map<string, seq<string>>, ghost owner: Option<string>)
    requires Dealt(workers, target, samples, owners, shards) && CountsAgree(counts, shards)
    ensures Dealt(workers, target, samples + [sample], owners + [owner], more) && CountsAgree(moreCounts, more)
    ensures Served(workers, target, samples, owners, sampleIndex, owner)
  {
    var found := NextImageWorker(workers, counts, sampleIndex, target);
    owner := found;
    match found
    case None =>
      DealtToNobody(workers, target, samples, owners, shards, sample);
      moreCounts, more := counts, shards;
    case Some(w) =>
      ghost var offset: nat :| offset < |workers| && FirstOpen(workers, counts, sampleIndex, target, offset, w);
      FoundServed(workers, target, counts, shards, samples, owners, sampleIndex, offset, w);
      DealtTo(workers, target, samples, owners, shards, sample, w);
      moreCounts := counts[w := counts[w] + 1];
      more := shards[w := shards[w] + [sample]];
  }

  lemma TakeNext(samples: seq<string>, images: seq<string>, n: nat)
    requires n < |images|
    ensures samples + images[..n] + [images[n]] == samples + images[..n + 1]
  {
  }

  lemma PositionNext(positions: seq<nat>, n: nat)
    ensures positions + UpTo(n) + [n] == positions + UpTo(n + 1)
  {
  }

  method DealClass(workers: seq<string>, target: nat, counts: map<string, nat>, shards: map<string, seq<string>>,
                   images: seq<string>, ghost samples: seq<string>, ghost owners: seq<Option<string>>,
                   ghost positions: seq<nat>)
    returns (moreCounts: map<string, nat>, more: map<string, seq<string>>, ghost moreOwners: seq<Option<string>>)
    requires Dealt(workers, target, samples, owners, shards) && CountsAgree(counts, shards)
    requires InTurn(workers, target, samples, owners, positions)
    ensures Dealt(workers, target, samples + images, moreOwners, more) && CountsAgree(moreCounts, more)
    ensures InTurn(workers, target, samples + images, moreOwners, positions + UpTo(|images|))
  {
    moreCounts, more, moreOwners := counts, shards, owners;
    assert samples + images[..0] == samples && positions + UpTo(0) == positions;
    for sampleIndex := 0 to |images|
      invariant Dealt(workers, target, samples + images[..sampleIndex], moreOwners, more)
      invariant CountsAgree(moreCounts, more)
      invariant InTurn(workers, target, samples + images[..sampleIndex], moreOwners, positions + UpTo(sampleIndex))
    {
      ghost var owner;
      moreCounts, more, owner := Deal(workers, target, moreCounts, more, sampleIndex, images[sampleIndex],
                                      samples + images[..sampleIndex], moreOwners);
      InTurnNext(workers, target, samples + images[..sampleIndex], moreOwners, positions + UpTo(sampleIndex),
                 images[sampleIndex], owner, sampleIndex);
      moreOwners := moreOwners + [owner];
      TakeNext(samples, images, sampleIndex);
      PositionNext(positions, sampleIndex);
    }
    assert images[..|images|] == images;
  }

  lemma NothingDealt(workers: seq<string>, target: nat)
    ensures Dealt(workers, target, [], [], map w | w in Ids(workers) :: [])
  {
    var shards: map<string, seq<string>> := map w | w in Ids(workers) :: [];
    SumConstant(Ids(workers), Counted(shards), 0);
  }

  /** The data set is dealt out so that every Worker has exactly its quota: the error for an unbalanced result cannot
      occur. What is left over are the samples beyond the quotas, fewer than there are Workers when their ids differ. */
  method ShardImageFolder(classes: seq<seq<string>>, workers: seq<string>)
    returns (r: Result<seq<Assignment>>, shards: map<string, seq<string>>, ghost owners: seq<Option<string>>)
    ensures r == Err(NoWorkers) <==> workers == []
    ensures r == Err(TooFewSamples) <==> workers != [] && |Flat(classes)| < |workers|
    ensures r.Err? ==> r.error != CouldNotBalance
    ensures r.Ok? ==>
              var target := |Flat(classes)| / |workers|;
              && Dealt(workers, target, Flat(classes), owners, shards)
              && InTurn(workers, target, Flat(classes), owners, Positions(classes))
              && (forall w | w in workers :: |shards[w]| == target)
              && Dropped(owners) == |Flat(classes)| - target * |Ids(workers)|
              && |r.value| == |workers|
              && (forall i | 0 <= i < |workers| :: r.value[i] == Assignment(workers[i], i + 1, i + target, target))
  {
    shards, owners := map[], [];
    if |workers| == 0 {
      return Err(NoWorkers), shards, owners;
    }
    var total := CountSamples(classes);
    if total < |workers| {
      return Err(TooFewSamples), shards, owners;
    }
    var target := total / |workers|;
    ghost var dealt;
    var counts;
    counts, shards, dealt := DealAll(workers, target, classes);
    owners := dealt;
    QuotaProduct(total, |workers|);
    AllQuotasUsed(workers, target, Flat(classes), owners, shards);
    r := CheckBalance(workers, counts, target);
  }

  method DealAll(workers: seq<string>, target: nat, classes: seq<seq<string>>)
    returns (counts: map<string, nat>, shards: map<string, seq<string>>, ghost owners: seq<Option<string>>)
    ensures Dealt(workers, target, Flat(classes), owners, shards) && CountsAgree(counts, shards)
    ensures InTurn(workers, target, Flat(classes), owners, Positions(classes))
  {
    NothingDealt(workers, target);
    shards := map w | w in Ids(workers) :: [];
    counts := map w | w in Ids(workers) :: 0;
    owners := [];
    for c := 0 to |classes|
      invariant Dealt(workers, target, Flat(classes[..c]), owners, shards) && CountsAgree(counts, shards)
      invariant InTurn(workers, target, Flat(classes[..c]), owners, Positions(classes[..c]))
    {
      assert classes[..c+1][..c] == classes[..c];
      counts, shards, owners := DealClass(workers, target, counts, shards, classes[c], Flat(classes[..c]), owners,
                                          Positions(classes[..c]));
    }
    assert classes[..|classes|] == classes;
  }

  /** The final check: every Worker has to have its quota. */
  method CheckBalance(workers: seq<string>, counts: map<string, nat>, target: nat) returns (r: Result<seq<Assignment>>)
    requires forall w | w in workers :: w in counts
    ensures r.Ok? <==> forall w | w in workers :: counts[w] == target
    ensures r.Err? ==> r.error == CouldNotBalance
    ensures r.Ok? ==> |r.value| == |workers|
    ensures r.Ok? ==> forall i | 0 <= i < |workers| :: r.value[i] == Assignment(workers[i], i + 1, i + target, target)
  {
    var assignments: seq<Assignment> := [];
    for index := 0 to |workers|
      invariant |assignments| == index
      invariant forall i | 0 <= i < index :: counts[workers[i]] == target
      invariant forall i | 0 <= i < index :: assignments[i] == Assignment(workers[i], i + 1, i + target, target)
    {
      var count := counts[workers[index]];
      if count != target {
        assert workers[index] in workers;
        return Err(CouldNotBalance);
      }
      assignments := assignments + [Assignment(workers[index], index + 1, index + count, count)];
    }
    return Ok(assignments);
  }

  method CountSamples(classes: seq<seq<string>>) returns (total: nat)
    ensures total == |Flat(classes)|
  {
    total := 0;
    for c := 0 to |classes|
      invariant total == |Flat(classes[..c])|
    {
      assert classes[..c+1][..c] == classes[..c];
      total := total + |classes[c]|;
    }
    assert classes[..|classes|] == classes;
  }

  lemma QuotaProduct(total: nat, n: nat)
    requires n > 0
    ensures total / n * n <= total < total / n * n + n
  {
  }

  /** With distinct ids fewer samples than Workers are left over. */
  lemma FewDropped(total: nat, workers: seq<string>)
    requires workers != [] && forall i, j | 0 <= i < j < |workers| :: workers[i] != workers[j]
    ensures 0 <= total - total / |workers| * |Ids(workers)| < |workers|
  {
    IdsSize(workers);
    QuotaProduct(total, |workers|);
  }
}
