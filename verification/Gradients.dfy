/** What travels between a Worker and the Master: a chunk is the gradient of one parameter,
    a group is the unit that is averaged under one key.
    Payload bytes are modelled by the real numbers they decode to. */
module Gradients {
  import opened Indices

  /** `Other` stands for any encoding name that neither side knows. */
  datatype Encoding = Dense | TopK | Other

  /** `values` holds one number per parameter element when dense and one per index when top-k. The indices
      travel as numbers or packed into bytes; packed ones win. */
  datatype Chunk = Chunk(
    name: string,
    order: nat,
    numel: nat,
    hasGrad: bool,
    encoding: Encoding,
    indices: seq<int>,
    packed: seq<Byte>,
    values: seq<real>,
    round: nat)

  datatype Group = Group(chunks: seq<Chunk>)

  type Vec = seq<real>

  predicate Distinct(indices: seq<int>) {
    forall i, j | 0 <= i < j < |indices| :: indices[i] != indices[j]
  }

  predicate InBounds(indices: seq<int>, numel: nat) {
    forall i | 0 <= i < |indices| :: 0 <= indices[i] < numel
  }

  predicate Increasing(indices: seq<int>) {
    forall i, j | 0 <= i < j < |indices| :: indices[i] < indices[j]
  }

  /** The number that the first n index-value pairs put at position i; zero if none does. */
  function At(indices: seq<int>, values: seq<real>, n: nat, i: int): real
    requires n <= |indices| == |values|
  {
    if n == 0 then 0.0
    else if indices[n-1] == i then values[n-1]
    else At(indices, values, n - 1, i)
  }

  /** The dense tensor that index-value pairs stand for. */
  function Scatter(numel: nat, indices: seq<int>, values: seq<real>): (v: Vec)
    requires |indices| == |values|
    ensures |v| == numel
  {
    seq(numel, i requires 0 <= i < numel => At(indices, values, |indices|, i))
  }

  function Zeros(numel: nat): (v: Vec)
    ensures |v| == numel
  {
    seq(numel, i => 0.0)
  }

  /** The indices that both sides read from a chunk. */
  function IndicesOf(c: Chunk): (indices: seq<int>) {
    if c.packed == [] then c.indices
    else if Aligned(|c.packed|) then Unpacked(c.packed)
    else []
  }

  predicate ValidPairs(numel: nat, indices: seq<int>, values: seq<real>) {
    |values| == |indices| && InBounds(indices, numel) && Distinct(indices)
  }

  /** The payload is one that the receiving side can decode. */
  predicate Decodable(c: Chunk) {
    match c.encoding
    case Dense => |c.values| == c.numel
    case TopK => Aligned(|c.packed|) && ValidPairs(c.numel, IndicesOf(c), c.values)
    case Other => false
  }

  /** The tensor a chunk means; an absent gradient counts as zero. */
  function Meaning(c: Chunk): (v: Vec)
    requires c.hasGrad ==> Decodable(c)
    ensures |v| == c.numel
  {
    if !c.hasGrad then Zeros(c.numel)
    else if c.encoding == Dense then c.values
    else Scatter(c.numel, IndicesOf(c), c.values)
  }

  /** Numbers beside packed indices are not read by either side. */
  lemma PackedWin(c: Chunk, other: seq<int>)
    requires c.packed != []
    ensures IndicesOf(c.(indices := other)) == IndicesOf(c)
    ensures Decodable(c.(indices := other)) <==> Decodable(c)
    ensures Decodable(c) ==> Meaning(c.(indices := other)) == Meaning(c)
  {
  }

  /** A parameter that got no gradient. */
  function EmptyChunk(name: string, order: nat, numel: nat, round: nat): Chunk {
    Chunk(name, order, numel, false, Dense, [], [], [], round)
  }

  /** It names its parameter and its round, claims no gradient and no payload, and counts as zero. */
  lemma EmptyMeansZero(name: string, order: nat, numel: nat, round: nat)
    ensures var c := EmptyChunk(name, order, numel, round);
            && c.name == name && c.order == order && c.numel == numel && c.round == round
            && !c.hasGrad && c.encoding == Dense && c.values == [] && c.indices == [] && c.packed == []
            && Meaning(c) == Zeros(numel)
  {
  }

  lemma PackedIndices(c: Chunk, indices: seq<int>)
    requires Packable(indices) && c.indices == [] && c.packed == Packed(indices)
    ensures Aligned(|c.packed|) && IndicesOf(c) == indices
  {
    UnpackPacked(indices);
  }

  lemma {:induction false} AtNone(indices: seq<int>, values: seq<real>, n: nat, i: int)
    requires n <= |indices| == |values|
    requires i !in indices[..n]
    ensures At(indices, values, n, i) == 0.0
  {
    if n > 0 {
      assert indices[..n][n-1] == indices[n-1];
      assert indices[..n-1] <= indices[..n];
      AtNone(indices, values, n - 1, i);
    }
  }

  lemma {:induction false} AtSome(indices: seq<int>, values: seq<real>, n: nat, p: nat)
    requires p < n <= |indices| == |values| && Distinct(indices)
    ensures At(indices, values, n, indices[p]) == values[p]
  {
    if p < n - 1 {
      assert indices[p] != indices[n-1];
      AtSome(indices, values, n - 1, p);
    }
  }
}
