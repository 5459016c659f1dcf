/** Averaging on the Master, on values: the dense, the missing-gradient and the sparse path. */
module Averaging {
  import opened Wrappers
  import opened Gradients
  import opened Indices

  datatype Error = BadPacking | SizeMismatch | OutOfBounds | DuplicateIndex | UnsupportedEncoding | IndexTooLarge

  datatype Result<+T> = Ok(value: T) | Err(error: Error)

  // ---------- what the average means ----------

  predicate AllDecodable(chunks: seq<Chunk>, numel: nat) {
    forall c | c in chunks :: c.numel == numel && (c.hasGrad ==> Decodable(c))
  }

  function SumAt(chunks: seq<Chunk>, numel: nat, i: nat): real
    requires AllDecodable(chunks, numel) && i < numel
  {
    if chunks == [] then 0.0
    else
      var last := |chunks| - 1;
      SumAt(chunks[..last], numel, i) + Meaning(chunks[last])[i]
  }

  /** The pointwise mean over all Workers: missing gradients and unsent positions count as zero. */
  function Mean(chunks: seq<Chunk>, numel: nat): (v: Vec)
    requires chunks != [] && AllDecodable(chunks, numel)
    ensures |v| == numel
  {
    seq(numel, i requires 0 <= i < numel => SumAt(chunks, numel, i) / |chunks| as real)
  }

  lemma SumAtPrefix(chunks: seq<Chunk>, numel: nat, n: nat, i: nat)
    requires AllDecodable(chunks, numel) && i < numel && n < |chunks|
    ensures AllDecodable(chunks[..n], numel) && AllDecodable(chunks[..n+1], numel)
    ensures SumAt(chunks[..n+1], numel, i) == SumAt(chunks[..n], numel, i) + Meaning(chunks[n])[i]
  {
    assert chunks[..n+1][..n] == chunks[..n];
    assert forall c | c in chunks[..n+1] :: c in chunks;
    assert forall c | c in chunks[..n] :: c in chunks;
  }

  // ---------- decoding one chunk ----------

  predicate Sound(indices: seq<int>, numel: nat) {
    Distinct(indices) && InBounds(indices, numel)
  }

  lemma SoundNext(indices: seq<int>, n: nat, numel: nat)
    requires n < |indices| && Sound(indices[..n], numel)
    requires 0 <= indices[n] < numel && indices[n] !in indices[..n]
    ensures Sound(indices[..n+1], numel)
  {
    assert forall p | 0 <= p < n :: indices[..n+1][p] == indices[..n][p] && indices[..n][p] in indices[..n];
  }

  lemma RepeatedIndex(indices: seq<int>, n: nat)
    requires n < |indices| && indices[n] in indices[..n]
    ensures !Distinct(indices)
  {
  }

  /** Packed indices are unpacked; their length must be a multiple of four. */
  method ChunkIndices(c: Chunk) returns (r: Result<seq<int>>)
    ensures r == if Aligned(|c.packed|) then Ok(IndicesOf(c)) else Err(BadPacking)
  {
    if c.packed == [] {
      return Ok(c.indices);
    }
    var unpacked := UnpackUint32Indices(c.packed);
    if unpacked.None? {
      return Err(BadPacking);
    }
    return Ok(unpacked.value);
  }

  method DecodeSparse(c: Chunk) returns (r: Result<Vec>)
    requires c.hasGrad && c.encoding == TopK
    ensures r.Ok? <==> Decodable(c)
    ensures r.Ok? ==> r.value == Meaning(c)
    ensures r == Err(BadPacking) <==> !Aligned(|c.packed|)
    ensures r == Err(SizeMismatch) <==> Aligned(|c.packed|) && |c.values| != |IndicesOf(c)|
    ensures r == Err(OutOfBounds) ==> !InBounds(IndicesOf(c), c.numel)
    ensures r == Err(DuplicateIndex) ==> !Distinct(IndicesOf(c))
    ensures r.Err? ==> r.error in {BadPacking, SizeMismatch, OutOfBounds, DuplicateIndex}
  {
    var indices := ChunkIndices(c);
    if indices.Err? {
      return Err(indices.error);
    }
    r := DecodePairs(c.numel, indices.value, c.values);
  }

  method DecodePairs(numel: nat, indices: seq<int>, values: seq<real>) returns (r: Result<Vec>)
    ensures r.Ok? <==> ValidPairs(numel, indices, values)
    ensures r.Ok? ==> r.value == Scatter(numel, indices, values)
    ensures r == Err(SizeMismatch) <==> |values| != |indices|
    ensures r == Err(OutOfBounds) ==> !InBounds(indices, numel)
    ensures r == Err(DuplicateIndex) ==> !Distinct(indices)
    ensures r.Err? ==> r.error in {SizeMismatch, OutOfBounds, DuplicateIndex}
  {
    if |values| != |indices| {
      return Err(SizeMismatch);
    }
    var decoded := new real[numel](i => 0.0);
    var position := 0;
    while position < |indices|
      invariant 0 <= position <= |indices|
      invariant Sound(indices[..position], numel)
      invariant forall i | 0 <= i < numel :: decoded[i] == At(indices, values, position, i)
    {
      var index := indices[position];
      if index < 0 || index >= numel {
        return Err(OutOfBounds);
      }
      if index in indices[..position] {
        RepeatedIndex(indices, position);
        return Err(DuplicateIndex);
      }
      SoundNext(indices, position, numel);
      decoded[index] := values[position];
      position := position + 1;
    }
    assert indices[..position] == indices;
    return Ok(decoded[..]);
  }

  method DecodeChunk(c: Chunk) returns (r: Result<Vec>)
    ensures r.Ok? <==> (c.hasGrad ==> Decodable(c))
    ensures r.Ok? ==> r.value == Meaning(c)
  {
    if !c.hasGrad {
      return Ok(Zeros(c.numel));
    }
    match c.encoding
    case Dense =>
      if |c.values| != c.numel {
        return Err(SizeMismatch);
      }
      return Ok(c.values);
    case TopK =>
      r := DecodeSparse(c);
    case Other =>
      return Err(UnsupportedEncoding);
  }

  // ---------- the dense paths ----------

  method AddInto(sums: array<real>, values: Vec)
    requires sums.Length == |values|
    modifies sums
    ensures forall i | 0 <= i < sums.Length :: sums[i] == old(sums[i]) + values[i]
  {
    for index := 0 to sums.Length
      invariant forall i | 0 <= i < index :: sums[i] == old(sums[i]) + values[i]
      invariant forall i | index <= i < sums.Length :: sums[i] == old(sums[i])
    {
      sums[index] := sums[index] + values[index];
    }
  }

  method DivideBy(sums: array<real>, n: nat)
    requires n > 0
    modifies sums
    ensures forall i | 0 <= i < sums.Length :: sums[i] == old(sums[i]) / n as real
  {
    for index := 0 to sums.Length
      invariant forall i | 0 <= i < index :: sums[i] == old(sums[i]) / n as real
      invariant forall i | index <= i < sums.Length :: sums[i] == old(sums[i])
    {
      sums[index] := sums[index] / n as real;
    }
  }

  lemma PrefixDecodable(chunks: seq<Chunk>, numel: nat, n: nat)
    requires n < |chunks| && chunks[n].numel == numel
    requires AllDecodable(chunks[..n], numel) && (chunks[n].hasGrad ==> Decodable(chunks[n]))
    ensures AllDecodable(chunks[..n+1], numel)
    ensures forall i: nat | i < numel :: SumAt(chunks[..n+1], numel, i) == SumAt(chunks[..n], numel, i) + Meaning(chunks[n])[i]
  {
    assert chunks[..n+1] == chunks[..n] + [chunks[n]];
    assert chunks[..n+1][..n] == chunks[..n];
  }

  /** The path for data types that travel compressed and for missing gradients: one running sum per element. */
  method AverageCompressedData(numel: nat, chunks: seq<Chunk>) returns (r: Result<Vec>)
    requires chunks != [] && forall c | c in chunks :: c.numel == numel
    ensures r.Ok? <==> AllDecodable(chunks, numel)
    ensures r.Ok? ==> r.value == Mean(chunks, numel)
  {
    var sums := new real[numel](i => 0.0);
    var n := 0;
    while n < |chunks|
      invariant 0 <= n <= |chunks| && AllDecodable(chunks[..n], numel)
      invariant forall i: nat | i < numel :: sums[i] == SumAt(chunks[..n], numel, i)
    {
      var values := DecodeChunk(chunks[n]);
      assert chunks[n] in chunks;
      if values.Err? {
        return Err(values.error);
      }
      PrefixDecodable(chunks, numel, n);
      AddInto(sums, values.value);
      n := n + 1;
    }
    assert chunks[..n] == chunks;
    DivideBy(sums, |chunks|);
    return Ok(sums[..]);
  }

  method CheckSizes(numel: nat, chunks: seq<Chunk>) returns (ok: bool)
    requires forall c | c in chunks :: c.numel == numel && c.hasGrad && c.encoding == Dense
    ensures ok <==> AllDecodable(chunks, numel)
  {
    for n := 0 to |chunks|
      invariant forall m | 0 <= m < n :: |chunks[m].values| == numel
    {
      if |chunks[n].values| != numel {
        assert chunks[n] in chunks;
        return false;
      }
    }
    return true;
  }

  method SumElement(numel: nat, chunks: seq<Chunk>, index: nat) returns (sum: real)
    requires AllDecodable(chunks, numel) && index < numel
    requires forall c | c in chunks :: c.hasGrad && c.encoding == Dense
    ensures sum == SumAt(chunks, numel, index)
  {
    sum := 0.0;
    var n := 0;
    while n < |chunks|
      invariant 0 <= n <= |chunks| && AllDecodable(chunks[..n], numel)
      invariant sum == SumAt(chunks[..n], numel, index)
    {
      assert chunks[n] in chunks;
      PrefixDecodable(chunks, numel, n);
      sum := sum + chunks[n].values[index];
      n := n + 1;
    }
    assert chunks[..n] == chunks;
  }

  /** The plain dense path: sizes are checked first, then each element is summed over the Workers. */
  method AveragePlainData(numel: nat, chunks: seq<Chunk>) returns (r: Result<Vec>)
    requires chunks != []
    requires forall c | c in chunks :: c.numel == numel && c.hasGrad && c.encoding == Dense
    ensures r == if AllDecodable(chunks, numel) then Ok(Mean(chunks, numel)) else Err(SizeMismatch)
  {
    var ok := CheckSizes(numel, chunks);
    if !ok {
      return Err(SizeMismatch);
    }
    var result := new real[numel](i => 0.0);
    for index := 0 to numel
      invariant forall i | 0 <= i < index :: result[i] == SumAt(chunks, numel, i) / |chunks| as real
    {
      var sum := SumElement(numel, chunks, index);
      result[index] := sum / |chunks| as real;
    }
    assert result[..] == Mean(chunks, numel);
    return Ok(result[..]);
  }

  // ---------- the sparse path ----------

  function IndexSet(chunks: seq<Chunk>): set<int> {
    set c, i | c in chunks && c.hasGrad && i in IndicesOf(c) :: i
  }

  /** What averageSparseResponse insists on. */
  predicate AllSparse(chunks: seq<Chunk>, numel: nat) {
    forall c | c in chunks :: c.numel == numel && (c.hasGrad ==> c.encoding == TopK && Decodable(c))
  }

  /** The first n index-value pairs have been added to the sums. */
  ghost predicate AddedUpTo(sums: map<int, real>, out: map<int, real>, indices: seq<int>, values: seq<real>, n: nat)
    requires n <= |indices| == |values|
  {
    && (forall i :: i in out <==> i in sums || i in indices[..n])
    && (forall i | i in out :: out[i] == (if i in sums then sums[i] else 0.0) + At(indices, values, n, i))
  }

  lemma AddedNext(sums: map<int, real>, out: map<int, real>, indices: seq<int>, values: seq<real>, n: nat)
    requires n < |indices| == |values| && indices[n] !in indices[..n]
    requires AddedUpTo(sums, out, indices, values, n)
    ensures var i := indices[n];
            AddedUpTo(sums, out[i := (if i in out then out[i] else 0.0) + values[n]], indices, values, n + 1)
  {
    AtNone(indices, values, n, indices[n]);
    assert indices[..n+1] == indices[..n] + [indices[n]];
  }

  /** The whole payload of a chunk has been added. */
  ghost predicate Added(sums: map<int, real>, out: map<int, real>, c: Chunk) {
    |IndicesOf(c)| == |c.values| && AddedUpTo(sums, out, IndicesOf(c), c.values, |c.values|)
  }

  /** One payload is added to the running sums, one index at a time. */
  method AddSparse(sums: map<int, real>, c: Chunk) returns (r: Result<map<int, real>>)
    requires c.hasGrad
    ensures r.Ok? <==> c.encoding == TopK && Decodable(c)
    ensures r.Ok? ==> Added(sums, r.value, c)
  {
    if c.encoding != TopK {
      return Err(UnsupportedEncoding);
    }
    var indices := ChunkIndices(c);
    if indices.Err? {
      return Err(indices.error);
    }
    r := AddPairs(sums, c.numel, indices.value, c.values);
  }

  method AddPairs(sums: map<int, real>, numel: nat, indices: seq<int>, values: seq<real>)
    returns (r: Result<map<int, real>>)
    ensures r.Ok? <==> ValidPairs(numel, indices, values)
    ensures r.Ok? ==> AddedUpTo(sums, r.value, indices, values, |values|)
  {
    if |values| != |indices| {
      return Err(SizeMismatch);
    }
    var out := sums;
    var position := 0;
    while position < |indices|
      invariant 0 <= position <= |indices|
      invariant Sound(indices[..position], numel)
      invariant AddedUpTo(sums, out, indices, values, position)
    {
      var index := indices[position];
      if index < 0 || index >= numel {
        return Err(OutOfBounds);
      }
      if index in indices[..position] {
        RepeatedIndex(indices, position);
        return Err(DuplicateIndex);
      }
      SoundNext(indices, position, numel);
      AddedNext(sums, out, indices, values, position);
      out := out[index := (if index in out then out[index] else 0.0) + values[position]];
      position := position + 1;
    }
    assert indices[..position] == indices;
    return Ok(out);
  }

  method SortIndices(keys: set<int>) returns (sorted: seq<int>)
    ensures Increasing(sorted)
    ensures forall i :: i in sorted <==> i in keys
  {
    sorted := [];
    var rest := keys;
    while rest != {}
      invariant rest <= keys
      invariant forall i :: i in keys <==> i in sorted || i in rest
      invariant Increasing(sorted)
      invariant forall i, j | i in sorted && j in rest :: i < j
      decreases |rest|
    {
      var least := Least(rest);
      assert forall p | 0 <= p < |sorted| :: sorted[p] in sorted;
      sorted := sorted + [least];
      rest := rest - {least};
    }
  }

  method Any<T(==)>(s: set<T>) returns (x: T)
    requires s != {}
    ensures x in s
  {
    x :| x in s;
  }

  method Least(keys: set<int>) returns (least: int)
    requires keys != {}
    ensures least in keys && forall i | i in keys :: least <= i
  {
    least := Any(keys);
    var rest := keys - {least};
    while rest != {}
      invariant rest <= keys && least in keys
      invariant forall i | i in keys :: i in rest || least <= i
      decreases |rest|
    {
      var i := Any(rest);
      if i < least {
        least := i;
      }
      rest := rest - {i};
    }
  }

  datatype Sparse = Sparse(indices: seq<int>, values: seq<real>)

  /** The first loop: the sums of every index that some Worker sent. */
  method SumSparse(numel: nat, chunks: seq<Chunk>) returns (r: Result<map<int, real>>)
    requires forall c | c in chunks :: c.numel == numel
    ensures r.Ok? <==> AllSparse(chunks, numel)
    ensures r.Ok? ==> SumsUpTo(chunks, numel, |chunks|, r.value)
  {
    var sums: map<int, real> := map[];
    var n := 0;
    while n < |chunks|
      invariant 0 <= n <= |chunks| && AllSparse(chunks[..n], numel)
      invariant SumsUpTo(chunks, numel, n, sums)
    {
      assert chunks[n] in chunks;
      if chunks[n].hasGrad {
        var added := AddSparse(sums, chunks[n]);
        if added.Err? {
          return Err(added.error);
        }
        SumsNext(chunks, numel, n, sums, added.value);
        sums := added.value;
      } else {
        SumsSkip(chunks, numel, n, sums);
      }
      SparseNext(chunks, numel, n);
      n := n + 1;
    }
    assert chunks[..n] == chunks;
    return Ok(sums);
  }

  method AverageSparseResponse(numel: nat, chunks: seq<Chunk>) returns (r: Result<Sparse>)
    requires chunks != [] && forall c | c in chunks :: c.numel == numel
    ensures r.Ok? <==> AllSparse(chunks, numel)
    ensures r.Ok? ==> SparseMean(chunks, numel, r.value)
  {
    var sums := SumSparse(numel, chunks);
    if sums.Err? {
      return Err(sums.error);
    }
    var answer := DivideSums(sums.value, |chunks|);
    SumsMean(chunks, numel, sums.value, answer);
    return Ok(answer);
  }

  /** The last loop: the sums in the order of their indices, divided by the number of Workers. */
  method DivideSums(sums: map<int, real>, n: nat) returns (s: Sparse)
    requires n > 0
    ensures DividedSums(sums, n, s)
  {
    var indices := SortIndices(sums.Keys);
    assert forall p | 0 <= p < |indices| :: indices[p] in indices;
    var values := [];
    for p := 0 to |indices|
      invariant |values| == p
      invariant forall q | 0 <= q < p :: values[q] == sums[indices[q]] / n as real
    {
      values := values + [sums[indices[p]] / n as real];
    }
    return Sparse(indices, values);
  }

  ghost predicate DividedSums(sums: map<int, real>, n: nat, s: Sparse)
    requires n > 0
  {
    && Increasing(s.indices) && (forall i :: i in s.indices <==> i in sums)
    && |s.values| == |s.indices|
    && (forall p | 0 <= p < |s.indices| :: s.indices[p] in sums && s.values[p] == sums[s.indices[p]] / n as real)
  }

  lemma SumsMean(chunks: seq<Chunk>, numel: nat, sums: map<int, real>, s: Sparse)
    requires chunks != [] && AllSparse(chunks, numel) && SumsUpTo(chunks, numel, |chunks|, sums)
    requires DividedSums(sums, |chunks|, s)
    ensures SparseMean(chunks, numel, s)
  {
    assert chunks[..|chunks|] == chunks;
    forall p | 0 <= p < |s.indices|
      ensures 0 <= s.indices[p] < numel && s.values[p] == Mean(chunks, numel)[s.indices[p]]
    {
      MeanOf(chunks, numel, sums, s.indices[p]);
    }
    IsSparseMean(chunks, numel, s, sums.Keys);
  }

  lemma MeanOf(chunks: seq<Chunk>, numel: nat, sums: map<int, real>, i: int)
    requires chunks != [] && SumsUpTo(chunks, numel, |chunks|, sums) && i in sums
    ensures AllDecodable(chunks, numel) && 0 <= i < numel && Mean(chunks, numel)[i] == sums[i] / |chunks| as real
  {
    assert chunks[..|chunks|] == chunks;
  }

  lemma IsSparseMean(chunks: seq<Chunk>, numel: nat, s: Sparse, keys: set<int>)
    requires chunks != [] && AllSparse(chunks, numel)
    requires keys == IndexSet(chunks) && forall i :: i in s.indices <==> i in keys
    requires Increasing(s.indices) && InBounds(s.indices, numel) && |s.values| == |s.indices|
    requires forall p | 0 <= p < |s.indices| :: s.values[p] == Mean(chunks, numel)[s.indices[p]]
    ensures SparseMean(chunks, numel, s)
  {
  }

  /** The sparse answer: strictly increasing indices in bounds, exactly those that some Worker sent, each
      with the mean over all Workers at that position. */
  ghost predicate SparseMean(chunks: seq<Chunk>, numel: nat, s: Sparse)
    requires chunks != [] && AllSparse(chunks, numel)
  {
    && |s.values| == |s.indices|
    && Increasing(s.indices)
    && InBounds(s.indices, numel)
    && (forall i :: i in s.indices <==> i in IndexSet(chunks))
    && (forall p | 0 <= p < |s.indices| :: s.values[p] == Mean(chunks, numel)[s.indices[p]])
  }

  ghost predicate SumsUpTo(chunks: seq<Chunk>, numel: nat, n: nat, sums: map<int, real>) {
    && n <= |chunks| && AllDecodable(chunks[..n], numel)
    && sums.Keys == IndexSet(chunks[..n])
    && (forall i | i in sums :: 0 <= i < numel && sums[i] == SumAt(chunks[..n], numel, i))
    && (forall i | 0 <= i < numel && i !in sums :: SumAt(chunks[..n], numel, i) == 0.0)
  }

  lemma IndexSetNext(chunks: seq<Chunk>, n: nat)
    requires n < |chunks|
    ensures IndexSet(chunks[..n+1])
         == IndexSet(chunks[..n]) + (if chunks[n].hasGrad then set i | i in IndicesOf(chunks[n]) else {})
  {
    var more := chunks[..n+1];
    assert more == chunks[..n] + [chunks[n]];
    assert more[n] in more;
    assert forall c | c in chunks[..n] :: c in more;
    assert forall c | c in more :: c in chunks[..n] || c == chunks[n];
    var rhs := IndexSet(chunks[..n]) + (if chunks[n].hasGrad then set i | i in IndicesOf(chunks[n]) else {});
    forall i: int | i in IndexSet(more) ensures i in rhs {
      var c :| c in more && c.hasGrad && i in IndicesOf(c);
    }
    forall i: int | i in rhs ensures i in IndexSet(more) {
      if i in IndexSet(chunks[..n]) {
        var c :| c in chunks[..n] && c.hasGrad && i in IndicesOf(c);
      }
    }
    assert IndexSet(more) == rhs;
  }

  lemma SumsNext(chunks: seq<Chunk>, numel: nat, n: nat, sums: map<int, real>, added: map<int, real>)
    requires n < |chunks| && SumsUpTo(chunks, numel, n, sums)
    requires chunks[n].hasGrad && chunks[n].encoding == TopK && Decodable(chunks[n]) && chunks[n].numel == numel
    requires Added(sums, added, chunks[n])
    ensures SumsUpTo(chunks, numel, n + 1, added)
  {
    PrefixDecodable(chunks, numel, n);
    KeysNext(chunks, n, sums, added);
    AddedInBounds(sums, added, chunks[n]);
    forall i | 0 <= i < numel
      ensures SumAt(chunks[..n+1], numel, i) == if i in added then added[i] else 0.0
    {
      SumNext(chunks, numel, n, sums, added, i);
    }
    SumsAre(chunks, numel, n + 1, added);
  }

  lemma SumsAre(chunks: seq<Chunk>, numel: nat, n: nat, sums: map<int, real>)
    requires n <= |chunks| && AllDecodable(chunks[..n], numel) && sums.Keys == IndexSet(chunks[..n])
    requires forall i | i in sums :: 0 <= i < numel
    requires forall i | 0 <= i < numel :: SumAt(chunks[..n], numel, i) == if i in sums then sums[i] else 0.0
    ensures SumsUpTo(chunks, numel, n, sums)
  {
  }

  lemma SparseNext(chunks: seq<Chunk>, numel: nat, n: nat)
    requires n < |chunks| && AllSparse(chunks[..n], numel) && chunks[n].numel == numel
    requires chunks[n].hasGrad ==> chunks[n].encoding == TopK && Decodable(chunks[n])
    ensures AllSparse(chunks[..n+1], numel)
  {
    assert chunks[..n+1] == chunks[..n] + [chunks[n]];
  }

  lemma AddedInBounds(sums: map<int, real>, added: map<int, real>, c: Chunk)
    requires Added(sums, added, c) && c.encoding == TopK && Decodable(c)
    requires forall i | i in sums :: 0 <= i < c.numel
    ensures forall i | i in added :: 0 <= i < c.numel
  {
    var indices := IndicesOf(c);
    assert indices[..|indices|] == indices;
    forall i | i in added ensures 0 <= i < c.numel {
      assert i in indices ==> exists p :: 0 <= p < |indices| && indices[p] == i;
    }
  }

  lemma KeysNext(chunks: seq<Chunk>, n: nat, sums: map<int, real>, added: map<int, real>)
    requires n < |chunks| && chunks[n].hasGrad && sums.Keys == IndexSet(chunks[..n])
    requires Added(sums, added, chunks[n])
    ensures added.Keys == IndexSet(chunks[..n+1])
  {
    var indices := IndicesOf(chunks[n]);
    assert indices[..|indices|] == indices;
    IndexSetNext(chunks, n);
    assert forall i: int :: i in added.Keys <==> i in IndexSet(chunks[..n+1]);
  }

  lemma SumNext(chunks: seq<Chunk>, numel: nat, n: nat, sums: map<int, real>, added: map<int, real>, i: nat)
    requires n < |chunks| && SumsUpTo(chunks, numel, n, sums) && i < numel
    requires chunks[n].hasGrad && chunks[n].encoding == TopK && Decodable(chunks[n]) && chunks[n].numel == numel
    requires Added(sums, added, chunks[n])
    requires AllDecodable(chunks[..n+1], numel)
    requires SumAt(chunks[..n+1], numel, i) == SumAt(chunks[..n], numel, i) + Meaning(chunks[n])[i]
    ensures SumAt(chunks[..n+1], numel, i) == if i in added then added[i] else 0.0
  {
    var c := chunks[n];
    var indices := IndicesOf(c);
    assert indices[..|indices|] == indices;
    assert Meaning(c)[i] == At(indices, c.values, |indices|, i);
    if i !in indices {
      AtNone(indices, c.values, |indices|, i);
    }
  }

  lemma SumsSkip(chunks: seq<Chunk>, numel: nat, n: nat, sums: map<int, real>)
    requires n < |chunks| && SumsUpTo(chunks, numel, n, sums)
    requires !chunks[n].hasGrad && chunks[n].numel == numel
    ensures SumsUpTo(chunks, numel, n + 1, sums)
  {
    IndexSetNext(chunks, n);
    PrefixDecodable(chunks, numel, n);
    forall i: nat | i < numel ensures SumAt(chunks[..n+1], numel, i) == SumAt(chunks[..n], numel, i) {
      assert Meaning(chunks[n])[i] == 0.0;
    }
  }

  // ---------- sparse refines dense ----------

  lemma {:induction false} OutsideIndexSet(chunks: seq<Chunk>, numel: nat, i: nat)
    requires AllSparse(chunks, numel) && i < numel && i !in IndexSet(chunks)
    ensures SumAt(chunks, numel, i) == 0.0
  {
    if chunks != [] {
      var n := |chunks| - 1;
      assert chunks[..n+1] == chunks;
      IndexSetNext(chunks, n);
      OutsideIndexSet(chunks[..n], numel, i);
      var c := chunks[n];
      if c.hasGrad {
        var indices := IndicesOf(c);
        assert indices[..|indices|] == indices;
        AtNone(indices, c.values, |indices|, i);
      }
    }
  }

  /** Scattering the sparse answer gives the dense mean of the scattered inputs. */
  lemma SparseIsDenseMean(chunks: seq<Chunk>, numel: nat, s: Sparse)
    requires chunks != [] && AllSparse(chunks, numel) && SparseMean(chunks, numel, s)
    ensures Scatter(numel, s.indices, s.values) == Mean(chunks, numel)
  {
    forall i | 0 <= i < numel
      ensures At(s.indices, s.values, |s.indices|, i) == Mean(chunks, numel)[i]
    {
      assert s.indices[..|s.indices|] == s.indices;
      if i in s.indices {
        var p :| 0 <= p < |s.indices| && s.indices[p] == i;
        AtSome(s.indices, s.values, |s.indices|, p);
      } else {
        AtNone(s.indices, s.values, |s.indices|, i);
        OutsideIndexSet(chunks, numel, i);
      }
    }
  }

  /** There is only one such answer: the order in which the Workers' chunks arrive cannot show. */
  lemma SparseMeanUnique(chunks: seq<Chunk>, numel: nat, s: Sparse, t: Sparse)
    requires chunks != [] && AllSparse(chunks, numel)
    requires SparseMean(chunks, numel, s) && SparseMean(chunks, numel, t)
    ensures s == t
  {
    IncreasingUnique(s.indices, t.indices);
  }

  lemma {:induction false} IncreasingUnique(s: seq<int>, t: seq<int>)
    requires Increasing(s) && Increasing(t)
    requires forall i :: i in s <==> i in t
    ensures s == t
    decreases |s|
  {
    if s == [] {
      if t != [] {
        var i := HasMember(t);
      }
    } else {
      assert s[0] in s && s[0] in t;
      var p :| 0 <= p < |t| && t[p] == s[0];
      assert t[0] in t && t[0] in s;
      var q :| 0 <= q < |s| && s[q] == t[0];
      assert s[0] == t[0];
      RestAfter(s);
      RestAfter(t);
      IncreasingUnique(s[1..], t[1..]);
    }
  }

  lemma HasMember(t: seq<int>) returns (i: int)
    requires t != []
    ensures i in t
  {
    i := t[0];
  }

  lemma RestAfter(s: seq<int>)
    requires s != [] && Increasing(s)
    ensures Increasing(s[1..])
    ensures forall i :: i in s[1..] <==> i in s && i != s[0]
  {
    forall i ensures i in s[1..] <==> i in s && i != s[0] {
      assert s == [s[0]] + s[1..];
      if i in s[1..] {
        var p :| 0 <= p < |s[1..]| && s[1..][p] == i;
        assert s[p + 1] == i;
      }
    }
  }

  // ---------- order of arrival ----------

  lemma {:induction false} SumAtAppend(a: seq<Chunk>, b: seq<Chunk>, numel: nat, i: nat)
    requires AllDecodable(a, numel) && AllDecodable(b, numel) && i < numel
    ensures AllDecodable(a + b, numel)
    ensures SumAt(a + b, numel, i) == SumAt(a, numel, i) + SumAt(b, numel, i)
    decreases |b|
  {
    if b == [] {
      assert a + b == a;
    } else {
      SumAtLast(b, numel, i);
      SumAtAppend(a, b[..|b| - 1], numel, i);
      AppendedLast(a, b);
      assert AllDecodable(a + b, numel);
      SumAtLast(a + b, numel, i);
    }
  }

  lemma SumAtLast(chunks: seq<Chunk>, numel: nat, i: nat)
    requires chunks != [] && AllDecodable(chunks, numel) && i < numel
    ensures AllDecodable(chunks[..|chunks| - 1], numel)
    ensures SumAt(chunks, numel, i) == SumAt(chunks[..|chunks| - 1], numel, i) + Meaning(chunks[|chunks| - 1])[i]
  {
  }

  lemma AppendedLast<T>(a: seq<T>, b: seq<T>)
    requires b != []
    ensures (a + b)[..|a + b| - 1] == a + b[..|b| - 1] && (a + b)[|a + b| - 1] == b[|b| - 1]
  {
  }

  lemma SumAtOne(c: Chunk, numel: nat, i: nat)
    requires AllDecodable([c], numel) && i < numel
    ensures SumAt([c], numel, i) == Meaning(c)[i]
  {
    assert [c][..0] == [];
    assert SumAt([c][..0], numel, i) == 0.0;
  }

  lemma SumAtRemove(a: seq<Chunk>, c: Chunk, b: seq<Chunk>, numel: nat, i: nat)
    requires AllDecodable(a, numel) && AllDecodable([c], numel) && AllDecodable(b, numel) && i < numel
    ensures AllDecodable(a + b, numel) && AllDecodable(a + [c] + b, numel)
    ensures SumAt(a + [c] + b, numel, i) == SumAt(a + b, numel, i) + Meaning(c)[i]
  {
    SumAtOne(c, numel, i);
    SumAtAppend(a, [c], numel, i);
    SumAtAppend(a + [c], b, numel, i);
    SumAtAppend(a, b, numel, i);
  }

  lemma Rearranged(chunks: seq<Chunk>, others: seq<Chunk>) returns (n: nat)
    requires chunks != [] && multiset(chunks) == multiset(others)
    ensures var last := |chunks| - 1;
            && n < |others| && others[n] == chunks[last]
            && others == others[..n] + [chunks[last]] + others[n+1..]
            && multiset(chunks[..last]) == multiset(others[..n] + others[n+1..])
  {
    var last := |chunks| - 1;
    var c := chunks[last];
    assert chunks == chunks[..last] + [c];
    assert c in multiset(others);
    n :| 0 <= n < |others| && others[n] == c;
    assert others == others[..n] + [c] + others[n+1..];
    calc {
      multiset(chunks[..last]);
      multiset(chunks) - multiset{c};
      multiset(others) - multiset{c};
      multiset(others[..n] + others[n+1..]);
    }
  }

  /** Sums, hence means, do not depend on the order of the submissions. */
  lemma {:induction false} SumAtPermuted(chunks: seq<Chunk>, others: seq<Chunk>, numel: nat, i: nat)
    requires AllDecodable(chunks, numel) && AllDecodable(others, numel) && i < numel
    requires multiset(chunks) == multiset(others)
    ensures SumAt(chunks, numel, i) == SumAt(others, numel, i)
    decreases |chunks|
  {
    if chunks == [] {
      assert |multiset(others)| == |others|;
    } else {
      var last := |chunks| - 1;
      var n := Rearranged(chunks, others);
      assert AllDecodable(others[..n], numel) && AllDecodable(others[n+1..], numel);
      assert others[n] in others;
      SumAtRemove(others[..n], chunks[last], others[n+1..], numel, i);
      SumAtPermuted(chunks[..last], others[..n] + others[n+1..], numel, i);
    }
  }

  lemma SameMembers(chunks: seq<Chunk>, others: seq<Chunk>)
    requires multiset(chunks) == multiset(others)
    ensures |chunks| == |others|
    ensures forall c :: c in chunks <==> c in others
  {
    assert |multiset(chunks)| == |chunks| && |multiset(others)| == |others|;
    assert forall c :: c in chunks <==> c in multiset(chunks);
    assert forall c :: c in others <==> c in multiset(others);
  }

  lemma MeanPermuted(chunks: seq<Chunk>, others: seq<Chunk>, numel: nat)
    requires chunks != [] && AllDecodable(chunks, numel) && multiset(chunks) == multiset(others)
    ensures others != [] && AllDecodable(others, numel)
    ensures Mean(chunks, numel) == Mean(others, numel)
  {
    SameMembers(chunks, others);
    forall i: nat | i < numel ensures SumAt(chunks, numel, i) == SumAt(others, numel, i) {
      SumAtPermuted(chunks, others, numel, i);
    }
  }

  // ---------- one averaged chunk ----------

  predicate UsesCompression(chunks: seq<Chunk>) {
    exists c | c in chunks :: c.encoding != Dense
  }

  /** The sparse answer's indices fit the packed form. */
  predicate FitsPacking(chunks: seq<Chunk>) {
    forall i | i in IndexSet(chunks) :: i < LIMIT
  }

  /** Which lists of chunks averageChunks answers. */
  predicate Averageable(chunks: seq<Chunk>, numel: nat) {
    (forall c | c in chunks :: !c.hasGrad) ||
    if UsesCompression(chunks) then AllSparse(chunks, numel) && FitsPacking(chunks) else AllDecodable(chunks, numel)
  }

  /** Where there is a gradient to average, all gradients are top-k, or no chunk names an encoding but dense, not even
      one without gradient. */
  lemma EncodingsAgree(chunks: seq<Chunk>, numel: nat, d: Chunk)
    requires Averageable(chunks, numel) && d in chunks && d.hasGrad
    ensures (forall c | c in chunks && c.hasGrad :: c.encoding == TopK) || (forall c | c in chunks :: c.encoding == Dense)
  {
  }

  /** What averageChunks answers: the metadata of one of the chunks, and as payload nothing, the dense mean, or
      the sparse mean with packed indices. */
  ghost predicate AnswerOf(chunks: seq<Chunk>, numel: nat, c: Chunk)
    requires chunks != [] && AllDecodable(chunks, numel)
  {
    && c.numel == numel
    && (exists d | d in chunks :: c.name == d.name && c.order == d.order && c.round == d.round)
    && (c.hasGrad <==> exists d | d in chunks :: d.hasGrad)
    && (c.hasGrad ==>
          if UsesCompression(chunks) then exists s :: SparseAnswer(chunks, numel, c, s)
          else DenseAnswer(chunks, numel, c))
  }

  ghost predicate DenseAnswer(chunks: seq<Chunk>, numel: nat, c: Chunk)
    requires chunks != [] && AllDecodable(chunks, numel)
  {
    c.encoding == Dense && c.values == Mean(chunks, numel)
  }

  ghost predicate SparseAnswer(chunks: seq<Chunk>, numel: nat, c: Chunk, s: Sparse)
    requires chunks != [] && AllDecodable(chunks, numel)
  {
    && c.encoding == TopK
    && AllSparse(chunks, numel) && SparseMean(chunks, numel, s)
    && Packable(s.indices) && c.indices == [] && c.packed == Packed(s.indices)
    && c.values == s.values
  }

  /** The receiver can read every answer, and it means the mean. */
  lemma AnswerMeansMean(chunks: seq<Chunk>, numel: nat, c: Chunk)
    requires chunks != [] && AllDecodable(chunks, numel) && AnswerOf(chunks, numel, c)
    ensures c.hasGrad ==> Decodable(c)
    ensures Meaning(c) == Mean(chunks, numel)
  {
    if !c.hasGrad {
      AllMissingMean(chunks, numel);
    } else if UsesCompression(chunks) {
      var s :| SparseAnswer(chunks, numel, c, s);
      SparseAnswerMeans(chunks, numel, c, s);
    }
  }

  lemma SparseAnswerMeans(chunks: seq<Chunk>, numel: nat, c: Chunk, s: Sparse)
    requires chunks != [] && AllDecodable(chunks, numel) && SparseAnswer(chunks, numel, c, s)
    requires c.numel == numel
    ensures Decodable(c)
    ensures Scatter(numel, IndicesOf(c), c.values) == Mean(chunks, numel)
  {
    PackedIndices(c, s.indices);
    assert ValidPairs(numel, s.indices, s.values);
    SparseIsDenseMean(chunks, numel, s);
  }

  /** An answer does not show the order of the chunks. */
  lemma AnswerPermuted(chunks: seq<Chunk>, others: seq<Chunk>, numel: nat, c: Chunk)
    requires chunks != [] && AllDecodable(chunks, numel) && multiset(chunks) == multiset(others)
    requires AnswerOf(chunks, numel, c)
    ensures others != [] && AllDecodable(others, numel) && AnswerOf(others, numel, c)
  {
    SameMembers(chunks, others);
    MeanPermuted(chunks, others, numel);
    SameIndexSet(chunks, others);
    if c.hasGrad && UsesCompression(chunks) {
      var s :| SparseAnswer(chunks, numel, c, s);
      assert SparseAnswer(others, numel, c, s);
    }
  }

  lemma SameIndexSet(chunks: seq<Chunk>, others: seq<Chunk>)
    requires forall c :: c in chunks <==> c in others
    ensures IndexSet(chunks) == IndexSet(others)
  {
  }

  lemma PackableAnswer(chunks: seq<Chunk>, numel: nat, s: Sparse)
    requires chunks != [] && AllSparse(chunks, numel) && SparseMean(chunks, numel, s)
    ensures Packable(s.indices) <==> FitsPacking(chunks)
  {
    assert forall p | 0 <= p < |s.indices| :: s.indices[p] in s.indices;
  }

  /** Indices that the Workers packed never make the answer too large to pack. */
  lemma PackedFits(chunks: seq<Chunk>)
    requires forall c | c in chunks && c.hasGrad :: c.indices == []
    ensures FitsPacking(chunks)
  {
    forall i | i in IndexSet(chunks) ensures i < LIMIT {
      var c :| c in chunks && c.hasGrad && i in IndicesOf(c);
      PackUnpacked(c.packed);
    }
  }

  method FirstWithGradient(chunks: seq<Chunk>) returns (found: Option<Chunk>)
    ensures found.None? <==> forall c | c in chunks :: !c.hasGrad
    ensures found.Some? ==> found.value in chunks && found.value.hasGrad
  {
    for n := 0 to |chunks|
      invariant forall m | 0 <= m < n :: !chunks[m].hasGrad
    {
      if chunks[n].hasGrad {
        return Some(chunks[n]);
      }
    }
    return None;
  }

  /** Answers exactly what can be averaged. */
  method AverageChunks(chunks: seq<Chunk>, numel: nat, typed: bool) returns (r: Result<Chunk>)
    requires chunks != [] && forall c | c in chunks :: c.numel == numel
    ensures r.Ok? <==> Averageable(chunks, numel)
    ensures r.Ok? ==> AllDecodable(chunks, numel) && AnswerOf(chunks, numel, r.value)
  {
    var found := FirstWithGradient(chunks);
    if found.None? {
      assert chunks[0] in chunks;
      return Ok(chunks[0].(values := [], encoding := Dense, indices := []));
    }
    var compressed := UsesCompression(chunks);
    if compressed {
      r := AverageAndPack(chunks, numel, found.value);
      return;
    }
    var v := AverageData(numel, chunks, typed);
    if v.Err? {
      return Err(v.error);
    }
    return Ok(found.value.(values := v.value, encoding := Dense, indices := []));
  }

  /** The sparse branch: the sorted indices travel packed, or not at all. */
  method AverageAndPack(chunks: seq<Chunk>, numel: nat, reference: Chunk) returns (r: Result<Chunk>)
    requires chunks != [] && forall c | c in chunks :: c.numel == numel
    requires reference in chunks && reference.hasGrad && UsesCompression(chunks)
    ensures r.Ok? <==> AllSparse(chunks, numel) && FitsPacking(chunks)
    ensures r.Ok? ==> AnswerOf(chunks, numel, r.value)
  {
    var s := AverageSparseResponse(numel, chunks);
    if s.Err? {
      return Err(s.error);
    }
    PackableAnswer(chunks, numel, s.value);
    var packed := PackUint32Indices(s.value.indices);
    if packed.None? {
      return Err(IndexTooLarge);
    }
    r := Ok(reference.(values := s.value.values, encoding := TopK, indices := [], packed := packed.value));
    assert SparseAnswer(chunks, numel, r.value, s.value);
  }

  /** `typed` says whether the first chunk names the data type of its payload. */
  method AverageData(numel: nat, chunks: seq<Chunk>, typed: bool) returns (r: Result<Vec>)
    requires chunks != [] && !UsesCompression(chunks)
    requires forall c | c in chunks :: c.numel == numel
    ensures r.Ok? <==> AllDecodable(chunks, numel)
    ensures r.Ok? ==> r.value == Mean(chunks, numel)
  {
    var missing := exists c | c in chunks :: !c.hasGrad;
    if missing || typed {
      r := AverageCompressedData(numel, chunks);
    } else {
      r := AveragePlainData(numel, chunks);
    }
  }

  lemma AllMissingMean(chunks: seq<Chunk>, numel: nat)
    requires chunks != [] && forall c | c in chunks :: c.numel == numel && !c.hasGrad
    ensures Mean(chunks, numel) == Zeros(numel)
  {
    forall i: nat | i < numel ensures SumAt(chunks, numel, i) == 0.0 {
      MissingSum(chunks, numel, i);
    }
  }

  lemma {:induction false} MissingSum(chunks: seq<Chunk>, numel: nat, i: nat)
    requires i < numel && forall c | c in chunks :: c.numel == numel && !c.hasGrad
    ensures SumAt(chunks, numel, i) == 0.0
  {
    if chunks != [] {
      MissingSum(chunks[..|chunks| - 1], numel, i);
    }
  }
}
