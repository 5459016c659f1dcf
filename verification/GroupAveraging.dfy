/** Averaging a full round: one submission per Worker, member by member. The map of submissions is walked in an
    arbitrary order, a new one for every member. */
module GroupAveraging {
  import opened Gradients
  import opened Averaging

  type Worker = string

  type Submissions = map<Worker, Group>

  datatype GroupError = NoSubmissions | NoChunks | CountMismatch | MetadataMismatch | Member(error: Error)

  datatype GroupResult = Averaged(group: Group) | Failed(error: GroupError)

  /** An order in which the submissions can be walked. */
  ghost predicate Lists(ws: seq<Worker>, s: Submissions) {
    && (forall i, j | 0 <= i < j < |ws| :: ws[i] != ws[j])
    && (forall w :: w in ws <==> w in s)
  }

  predicate SameMetadata(c: Chunk, d: Chunk) {
    c.name == d.name && c.order == d.order && c.numel == d.numel
  }

  /** Every submission carries the same parameters in the same order. */
  predicate Compatible(s: Submissions) {
    forall v, w | v in s && w in s :: SameParameters(s[v], s[w])
  }

  predicate SameParameters(g: Group, h: Group) {
    && |g.chunks| == |h.chunks|
    && (forall m | 0 <= m < |g.chunks| :: SameMetadata(g.chunks[m], h.chunks[m]))
  }

  /** Member m of every listed submission. */
  function Members(s: Submissions, ws: seq<Worker>, m: nat): (chunks: seq<Chunk>)
    requires forall w | w in ws :: w in s && m < |s[w].chunks|
    ensures |chunks| == |ws|
    ensures forall i | 0 <= i < |ws| :: chunks[i] == s[ws[i]].chunks[m]
  {
    seq(|ws|, i requires 0 <= i < |ws| => s[ws[i]].chunks[m])
  }

  // ---------- the order does not matter ----------

  lemma MembersSplit(s: Submissions, a: seq<Worker>, w: Worker, b: seq<Worker>, m: nat)
    requires forall v | v in a + [w] + b :: v in s && m < |s[v].chunks|
    ensures forall v | v in a + b :: v in a + [w] + b
    ensures w in s && m < |s[w].chunks|
    ensures multiset(Members(s, a + [w] + b, m)) == multiset(Members(s, a + b, m)) + multiset{s[w].chunks[m]}
  {
    assert w in a + [w] + b;
    assert forall v | v in a + b :: v in a + [w] + b;
    var all := Members(s, a + [w] + b, m);
    var rest := Members(s, a + b, m);
    assert all == rest[..|a|] + [s[w].chunks[m]] + rest[|a|..];
    assert rest == rest[..|a|] + rest[|a|..];
  }

  lemma {:induction false} MembersPermuted(s: Submissions, ws: seq<Worker>, vs: seq<Worker>, m: nat)
    requires forall i, j | 0 <= i < j < |ws| :: ws[i] != ws[j]
    requires forall i, j | 0 <= i < j < |vs| :: vs[i] != vs[j]
    requires forall w :: w in ws <==> w in vs
    requires forall w | w in ws :: w in s && m < |s[w].chunks|
    ensures multiset(Members(s, ws, m)) == multiset(Members(s, vs, m))
    decreases |ws|
  {
    if ws == [] {
      EmptyListing(vs);
    } else {
      var first, others, n := Moved(ws, vs);
      MembersSplit(s, first, ws[|first|], [], m);
      assert first + [] == first;
      MembersSplit(s, vs[..n], ws[|first|], vs[n+1..], m);
      MembersPermuted(s, first, others, m);
    }
  }

  lemma EmptyListing(vs: seq<Worker>)
    ensures (forall v :: v !in vs) ==> vs == []
  {
    if vs != [] {
      assert vs[0] in vs;
    }
  }

  /** The last of one listing taken out of both. */
  lemma Moved(ws: seq<Worker>, vs: seq<Worker>) returns (first: seq<Worker>, others: seq<Worker>, n: nat)
    requires ws != [] && forall w :: w in ws <==> w in vs
    requires forall i, j | 0 <= i < j < |ws| :: ws[i] != ws[j]
    requires forall i, j | 0 <= i < j < |vs| :: vs[i] != vs[j]
    ensures |first| == |ws| - 1 && ws == first + [ws[|first|]] + []
    ensures n < |vs| && vs == vs[..n] + [ws[|first|]] + vs[n+1..] && others == vs[..n] + vs[n+1..]
    ensures forall i, j | 0 <= i < j < |first| :: first[i] != first[j]
    ensures forall i, j | 0 <= i < j < |others| :: others[i] != others[j]
    ensures forall v :: v in first <==> v in others
    ensures forall v | v in first :: v in ws
  {
    first := ws[..|ws| - 1];
    var w := ws[|first|];
    assert w in ws;
    n :| 0 <= n < |vs| && vs[n] == w;
    others := vs[..n] + vs[n+1..];
    assert ws == first + [w];
    assert vs == vs[..n] + [w] + vs[n+1..];
    forall v ensures v in first <==> v in others {
      assert v in ws <==> v in first || v == w;
      assert v in vs <==> v in others || v == w;
      assert w !in first && w !in others;
    }
  }

  // ---------- the answer ----------

  ghost predicate MemberAnswerable(s: Submissions, m: nat, numel: nat) {
    forall ws | Lists(ws, s) ::
      (forall w | w in ws :: m < |s[w].chunks|) && Averageable(Members(s, ws, m), numel)
  }

  /** Which rounds have an average. */
  ghost predicate Answerable(s: Submissions) {
    && s != map[]
    && Compatible(s)
    && (forall w | w in s ::
          s[w].chunks != [] && forall m: nat | m < |s[w].chunks| :: MemberAnswerable(s, m, s[w].chunks[m].numel))
  }

  /** Member m of the answer carries the same parameter and is what averageChunks answers for all Workers' chunks
      of it, in whatever order they are listed. */
  ghost predicate MemberMean(s: Submissions, m: nat, c: Chunk) {
    forall ws | Lists(ws, s) ::
      && (forall w | w in ws :: m < |s[w].chunks| && SameMetadata(s[w].chunks[m], c))
      && AllDecodable(Members(s, ws, m), c.numel)
      && ws != []
      && AnswerOf(Members(s, ws, m), c.numel, c)
  }

  ghost predicate GroupMean(s: Submissions, g: Group) {
    && (forall w | w in s :: |s[w].chunks| == |g.chunks|)
    && (forall m: nat | m < |g.chunks| :: MemberMean(s, m, g.chunks[m]))
  }

  ghost predicate FitsAt(s: Submissions, reference: Group, m: nat)
    requires m < |reference.chunks|
  {
    forall w | w in s ::
      |s[w].chunks| == |reference.chunks| && SameMetadata(reference.chunks[m], s[w].chunks[m])
  }

  /** The inner loop: member m of every submission, in the order in which the map happens to be walked. */
  method Gather(s: Submissions, reference: Group, m: nat)
    returns (chunks: seq<Chunk>, ghost ws: seq<Worker>, mismatch: bool, error: GroupError)
    requires m < |reference.chunks|
    ensures mismatch <==> !FitsAt(s, reference, m)
    ensures mismatch ==> error in {CountMismatch, MetadataMismatch}
    ensures !mismatch ==> Lists(ws, s) && chunks == Members(s, ws, m)
  {
    chunks, ws, error := [], [], NoSubmissions;
    var rest := s.Keys;
    while rest != {}
      invariant rest <= s.Keys
      invariant forall w :: w in s <==> w in ws || w in rest
      invariant forall i | 0 <= i < |ws| :: ws[i] !in rest
      invariant forall i, j | 0 <= i < j < |ws| :: ws[i] != ws[j]
      invariant forall w | w in ws ::
                  |s[w].chunks| == |reference.chunks| && SameMetadata(reference.chunks[m], s[w].chunks[m])
      invariant chunks == Members(s, ws, m)
      decreases |rest|
    {
      var w := Any(rest);
      if |s[w].chunks| != |reference.chunks| {
        return [], [], true, CountMismatch;
      }
      if !SameMetadata(reference.chunks[m], s[w].chunks[m]) {
        return [], [], true, MetadataMismatch;
      }
      chunks := chunks + [s[w].chunks[m]];
      ws := ws + [w];
      rest := rest - {w};
    }
    mismatch := false;
  }

  lemma MemberIsMean(s: Submissions, ws: seq<Worker>, m: nat, c: Chunk)
    requires Lists(ws, s) && ws != []
    requires forall w | w in ws :: m < |s[w].chunks| && SameMetadata(s[w].chunks[m], c)
    requires AllDecodable(Members(s, ws, m), c.numel) && AnswerOf(Members(s, ws, m), c.numel, c)
    ensures MemberMean(s, m, c)
  {
    forall vs | Lists(vs, s)
      ensures vs != [] && AllDecodable(Members(s, vs, m), c.numel) && AnswerOf(Members(s, vs, m), c.numel, c)
    {
      MembersPermuted(s, ws, vs, m);
      AnswerPermuted(Members(s, ws, m), Members(s, vs, m), c.numel, c);
    }
  }

  lemma AverageablePermuted(chunks: seq<Chunk>, others: seq<Chunk>, numel: nat)
    requires multiset(chunks) == multiset(others)
    ensures Averageable(chunks, numel) <==> Averageable(others, numel)
  {
    SameMembers(chunks, others);
    SameIndexSet(chunks, others);
  }

  lemma MemberIsAnswerable(s: Submissions, ws: seq<Worker>, m: nat, numel: nat)
    requires Lists(ws, s) && forall w | w in ws :: m < |s[w].chunks|
    ensures MemberAnswerable(s, m, numel) <==> Averageable(Members(s, ws, m), numel)
  {
    forall vs | Lists(vs, s)
      ensures (forall w | w in vs :: m < |s[w].chunks|)
      ensures Averageable(Members(s, ws, m), numel) <==> Averageable(Members(s, vs, m), numel)
    {
      MembersPermuted(s, ws, vs, m);
      AverageablePermuted(Members(s, ws, m), Members(s, vs, m), numel);
    }
  }

  /** One member: gathered in some order, then averaged, whether or not its first chunk names its data type. */
  method AverageMember(s: Submissions, reference: Group, m: nat) returns (c: Chunk, failed: bool, error: GroupError)
    requires m < |reference.chunks| && s != map[]
    ensures failed <==> !MemberFits(s, reference, m)
    ensures !failed ==> MemberMean(s, m, c)
  {
    c := reference.chunks[m];
    var chunks, ws, mismatch, why := Gather(s, reference, m);
    if mismatch {
      return c, true, why;
    }
    NotEmpty(s, ws);
    MemberIsAnswerable(s, ws, m, c.numel);
    var typed: bool := *;
    var r := AverageChunks(chunks, c.numel, typed);
    if r.Err? {
      return c, true, Member(r.error);
    }
    SameParameter(s, ws, reference, m, r.value);
    MemberIsMean(s, ws, m, r.value);
    return r.value, false, NoSubmissions;
  }

  lemma NotEmpty(s: Submissions, ws: seq<Worker>)
    requires s != map[] && Lists(ws, s)
    ensures ws != []
  {
    var w :| w in s;
  }

  lemma SameParameter(s: Submissions, ws: seq<Worker>, reference: Group, m: nat, c: Chunk)
    requires Lists(ws, s) && m < |reference.chunks| && FitsAt(s, reference, m)
    requires c.numel == reference.chunks[m].numel
    requires exists d | d in Members(s, ws, m) :: c.name == d.name && c.order == d.order
    ensures forall w | w in ws :: m < |s[w].chunks| && SameMetadata(s[w].chunks[m], c)
  {
    var chunks := Members(s, ws, m);
    var d :| d in chunks && c.name == d.name && c.order == d.order;
    var i :| 0 <= i < |chunks| && chunks[i] == d;
    assert ws[i] in ws;
    assert SameMetadata(reference.chunks[m], d);
  }

  /** A full round is averaged exactly when every submission carries the same parameters and every member can
      be averaged; the answer then means the mean of every member. */
  method AverageGroup(s: Submissions) returns (r: GroupResult)
    ensures r.Averaged? <==> Answerable(s)
    ensures r.Averaged? ==> GroupMean(s, r.group)
  {
    if s == map[] {
      return Failed(NoSubmissions);
    }
    var w := Any(s.Keys);
    var reference := s[w];
    if reference.chunks == [] {
      return Failed(NoChunks);
    }
    var averaged, failed, error := AverageMembers(s, reference);
    if failed {
      NotAnswerable(s, w);
      return Failed(error);
    }
    AllAnswerable(s, w);
    forall m: nat | m < |averaged| ensures MemberMean(s, m, averaged[m]) {
      MeansAt(s, averaged, m);
    }
    return Averaged(Group(averaged));
  }

  method AverageMembers(s: Submissions, reference: Group)
    returns (averaged: seq<Chunk>, failed: bool, error: GroupError)
    requires s != map[]
    ensures failed <==> !FitsUpTo(s, reference, |reference.chunks|)
    ensures !failed ==> |averaged| == |reference.chunks| && MeansUpTo(s, averaged)
  {
    averaged := [];
    for m := 0 to |reference.chunks|
      invariant |averaged| == m
      invariant FitsUpTo(s, reference, m) && MeansUpTo(s, averaged)
    {
      var c, bad, why := AverageMember(s, reference, m);
      if bad {
        return [], true, why;
      }
      FitsNext(s, reference, m);
      MeansNext(s, averaged, c);
      averaged := averaged + [c];
    }
    return averaged, false, NoSubmissions;
  }

  ghost predicate FitsUpTo(s: Submissions, reference: Group, n: nat)
    requires n <= |reference.chunks|
  {
    forall m: nat {:trigger MemberFits(s, reference, m)} | m < n :: MemberFits(s, reference, m)
  }

  ghost predicate MeansUpTo(s: Submissions, averaged: seq<Chunk>) {
    var last := |averaged| - 1;
    averaged == [] || (MeansUpTo(s, averaged[..last]) && MemberMean(s, last, averaged[last]))
  }

  lemma {:induction false} MeansAt(s: Submissions, averaged: seq<Chunk>, m: nat)
    requires MeansUpTo(s, averaged) && m < |averaged|
    ensures MemberMean(s, m, averaged[m])
  {
    LastMean(s, averaged);
    if m < |averaged| - 1 {
      MeansAt(s, averaged[..|averaged| - 1], m);
    }
  }

  lemma LastMean(s: Submissions, averaged: seq<Chunk>)
    requires averaged != [] && MeansUpTo(s, averaged)
    ensures var last := |averaged| - 1; MeansUpTo(s, averaged[..last]) && MemberMean(s, last, averaged[last])
  {
  }

  lemma FitsNext(s: Submissions, reference: Group, m: nat)
    requires m < |reference.chunks| && FitsUpTo(s, reference, m) && MemberFits(s, reference, m)
    ensures FitsUpTo(s, reference, m + 1)
  {
  }

  lemma MeansNext(s: Submissions, averaged: seq<Chunk>, c: Chunk)
    requires MeansUpTo(s, averaged) && MemberMean(s, |averaged|, c)
    ensures MeansUpTo(s, averaged + [c])
  {
    assert (averaged + [c])[..|averaged|] == averaged;
  }

  ghost predicate MemberFits(s: Submissions, reference: Group, m: nat)
    requires m < |reference.chunks|
  {
    FitsAt(s, reference, m) && MemberAnswerable(s, m, reference.chunks[m].numel)
  }

  lemma NotAnswerable(s: Submissions, w: Worker)
    requires w in s && !FitsUpTo(s, s[w], |s[w].chunks|)
    ensures !Answerable(s)
  {
    var m: nat :| m < |s[w].chunks| && !MemberFits(s, s[w], m);
    if Compatible(s) {
      forall v | v in s
        ensures |s[v].chunks| == |s[w].chunks| && SameMetadata(s[w].chunks[m], s[v].chunks[m])
      {
        assert SameParameters(s[w], s[v]);
      }
    }
  }

  lemma AllAnswerable(s: Submissions, w: Worker)
    requires w in s && s[w].chunks != []
    requires FitsUpTo(s, s[w], |s[w].chunks|)
    ensures Answerable(s)
    ensures forall v | v in s :: |s[v].chunks| == |s[w].chunks|
  {
    forall v | v in s ensures SameParameters(s[w], s[v]) {
      assert MemberFits(s, s[w], 0);
      forall m: nat | m < |s[w].chunks| ensures SameMetadata(s[w].chunks[m], s[v].chunks[m]) {
        assert MemberFits(s, s[w], m);
      }
    }
    forall v, u | v in s && u in s ensures SameParameters(s[v], s[u]) {
      assert SameParameters(s[w], s[v]) && SameParameters(s[w], s[u]);
    }
    forall v, m: nat | v in s && m < |s[v].chunks| ensures MemberAnswerable(s, m, s[v].chunks[m].numel) {
      assert MemberFits(s, s[w], m) && SameParameters(s[w], s[v]);
    }
  }
}
