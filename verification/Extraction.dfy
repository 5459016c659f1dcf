/** Turning gradients into chunks on the Worker, with the residuals that error feedback keeps per parameter. */
module Extraction {
  import opened Wrappers
  import opened Gradients
  import opened Indices
  import opened Compression

  type Residuals = map<string, Vec>

  /** A parameter of the model and its gradient after the backward pass, if it got one. */
  datatype Layer = Layer(name: string, numel: nat, gradient: Option<Vec>)

  ghost predicate WellFormed(layers: seq<Layer>) {
    && (forall j | 0 <= j < |layers| :: layers[j].gradient.Some? ==> |layers[j].gradient.value| == layers[j].numel)
    && (forall i, j | 0 <= i < j < |layers| :: layers[i].name != layers[j].name)
  }

  /** The residual that is added to the next gradient: zero if none of the right size was kept. */
  function Prior(residuals: Residuals, name: string, numel: nat): (v: Vec)
    ensures |v| == numel
  {
    if name in residuals && |residuals[name]| == numel then residuals[name] else Zeros(numel)
  }

  function Effective(residuals: Residuals, name: string, gradient: Vec): (v: Vec)
    ensures |v| == |gradient|
  {
    Plus(gradient, Prior(residuals, name, |gradient|))
  }

  function DenseChunk(name: string, order: nat, gradient: Vec, round: nat): Chunk {
    Chunk(name, order, |gradient|, true, Dense, [], [], gradient, round)
  }

  function SparseChunk(name: string, order: nat, effective: Vec, indices: seq<int>, round: nat): Chunk
    requires InBounds(indices, |effective|) && Packable(indices)
  {
    Chunk(name, order, |effective|, true, TopK, [], Packed(indices), Take(effective, indices), round)
  }

  /** The chunk, unless an index is too large to pack: then packing raises an error. */
  function PackedChunk(name: string, order: nat, effective: Vec, indices: seq<int>, round: nat): Option<Chunk>
    requires InBounds(indices, |effective|)
  {
    if Packable(indices) then Some(SparseChunk(name, order, effective, indices, round)) else None
  }

  /** A sent chunk is readable and loses nothing. */
  lemma SparseChunkConserves(name: string, order: nat, effective: Vec, indices: seq<int>, round: nat)
    requires InBounds(indices, |effective|) && Packable(indices) && Distinct(indices)
    ensures var c := SparseChunk(name, order, effective, indices, round);
            Decodable(c) && Plus(Meaning(c), Residual(effective, indices)) == effective
  {
    PackedIndices(SparseChunk(name, order, effective, indices, round), indices);
    NothingLost(effective, indices);
  }

  predicate Compresses(cfg: Config, round: nat) {
    cfg.topK && round > cfg.warmupSteps
  }

  /** A sample that torch.randint may draw for a vector of this size. */
  predicate SampleFits(cfg: Config, sample: seq<int>, numel: nat) {
    InBounds(sample, numel) && (cfg.sampled ==> |sample| == TopKCount(numel, cfg.sampleRatePercent))
  }

  /** The residual is stored before the indices are packed, so it stays when packing raises an error. */
  datatype Compressed = Compressed(chunk: Option<Chunk>, residuals: Residuals)

  /** The hook path: one layer, as soon as its gradient is ready. */
  function CompressReady(name: string, order: nat, gradient: Vec, cfg: Config, topk: TopK, sample: seq<int>,
                         residuals: Residuals, round: nat): Compressed
    requires GoodTopK(topk) && SampleFits(cfg, sample, |gradient|)
  {
    if !Compresses(cfg, round) then Compressed(Some(DenseChunk(name, order, gradient, round)), residuals)
    else
      var effective := Effective(residuals, name, gradient);
      var indices := Select(effective, cfg, topk, sample).indices;
      SelectionSound(effective, cfg, topk, sample);
      Compressed(PackedChunk(name, order, effective, indices, round), residuals[name := Residual(effective, indices)])
  }

  /** The positions that the hook path sends when it compresses. */
  function ReadySelection(name: string, gradient: Vec, cfg: Config, topk: TopK, sample: seq<int>,
                          residuals: Residuals): (indices: seq<int>)
    requires GoodTopK(topk) && SampleFits(cfg, sample, |gradient|)
  {
    Select(Effective(residuals, name, gradient), cfg, topk, sample).indices
  }

  /** What the chunk means plus what is kept equals the gradient plus what was kept before; other
      parameters' residuals are untouched. There is a chunk exactly when the indices can be packed, which
      they can in every tensor of at most 2^32 elements. */
  lemma ReadyConserves(name: string, order: nat, gradient: Vec, cfg: Config, topk: TopK, sample: seq<int>,
                       residuals: Residuals, round: nat)
    requires GoodTopK(topk) && SampleFits(cfg, sample, |gradient|)
    ensures var c := CompressReady(name, order, gradient, cfg, topk, sample, residuals, round);
            && (c.chunk.Some? <==>
                  !Compresses(cfg, round) || Packable(ReadySelection(name, gradient, cfg, topk, sample, residuals)))
            && (|gradient| <= LIMIT ==> c.chunk.Some?)
            && (c.chunk.Some? ==> ReadySent(name, gradient, cfg, residuals, round, c.chunk.value, c.residuals))
            && (forall other | other != name :: other in c.residuals <==> other in residuals)
            && (forall other | other != name && other in residuals :: c.residuals[other] == residuals[other])
  {
    if Compresses(cfg, round) {
      var effective := Effective(residuals, name, gradient);
      SelectionSound(effective, cfg, topk, sample);
      var indices := Select(effective, cfg, topk, sample).indices;
      if Packable(indices) {
        SparseReady(name, order, gradient, cfg, indices, residuals, round);
      }
    } else {
      DenseReady(name, order, gradient, cfg, residuals, round);
    }
  }

  /** Without compression, and in the warm-up rounds with it, the gradient is sent as it is and nothing is kept. */
  lemma ReadyInWarmup(name: string, order: nat, gradient: Vec, cfg: Config, topk: TopK, sample: seq<int>,
                      residuals: Residuals, round: nat)
    requires GoodTopK(topk) && SampleFits(cfg, sample, |gradient|)
    requires !cfg.topK || round <= cfg.warmupSteps
    ensures var c := CompressReady(name, order, gradient, cfg, topk, sample, residuals, round);
            && c.residuals == residuals
            && c.chunk.Some? && About(c.chunk.value, name, order, |gradient|, round)
            && c.chunk.value.encoding == Dense && c.chunk.value.values == gradient
  {
  }

  /** The chunk carries a gradient of this parameter and round. */
  predicate About(c: Chunk, name: string, order: nat, numel: nat, round: nat) {
    c.hasGrad && c.name == name && c.order == order && c.numel == numel && c.round == round
  }

  /** These positions of the effective gradient are sent, and the others are kept: the largest ones, as many as the
      configuration allows. */
  ghost predicate SendsLargest(cfg: Config, effective: Vec, indices: seq<int>, c: Chunk, kept: Vec) {
    && Selects(Magnitudes(effective), indices) && (effective != [] ==> SentCountSound(cfg, |effective|, |indices|))
    && c.encoding == TopK && IndicesOf(c) == indices && c.values == Take(effective, indices)
    && kept == Residual(effective, indices)
  }

  /** After the warm-up, only the largest values of the effective gradient are sent, and the rest is kept. */
  lemma ReadyAfterWarmup(name: string, order: nat, gradient: Vec, cfg: Config, topk: TopK, sample: seq<int>,
                         residuals: Residuals, round: nat)
    requires GoodTopK(topk) && SampleFits(cfg, sample, |gradient|)
    requires cfg.topK && round > cfg.warmupSteps
    ensures var c := CompressReady(name, order, gradient, cfg, topk, sample, residuals, round);
            && name in c.residuals
            && (c.chunk.Some? ==>
                  && About(c.chunk.value, name, order, |gradient|, round)
                  && SendsLargest(cfg, Effective(residuals, name, gradient),
                                  ReadySelection(name, gradient, cfg, topk, sample, residuals), c.chunk.value,
                                  c.residuals[name]))
  {
    var effective := Effective(residuals, name, gradient);
    SelectionSound(effective, cfg, topk, sample);
    var indices := Select(effective, cfg, topk, sample).indices;
    if Packable(indices) {
      PackedIndices(SparseChunk(name, order, effective, indices, round), indices);
    }
  }

  lemma DenseReady(name: string, order: nat, gradient: Vec, cfg: Config, residuals: Residuals, round: nat)
    requires !Compresses(cfg, round)
    ensures ReadySent(name, gradient, cfg, residuals, round, DenseChunk(name, order, gradient, round), residuals)
  {
  }

  lemma SparseReady(name: string, order: nat, gradient: Vec, cfg: Config, indices: seq<int>, residuals: Residuals,
                    round: nat)
    requires Compresses(cfg, round) && InBounds(indices, |gradient|) && Packable(indices) && Distinct(indices)
    ensures var effective := Effective(residuals, name, gradient);
            ReadySent(name, gradient, cfg, residuals, round, SparseChunk(name, order, effective, indices, round),
                      residuals[name := Residual(effective, indices)])
  {
    SparseChunkConserves(name, order, Effective(residuals, name, gradient), indices, round);
  }

  ghost predicate ReadySent(name: string, gradient: Vec, cfg: Config, residuals: Residuals, round: nat,
                            c: Chunk, after: Residuals)
  {
    && c.hasGrad && Decodable(c) && c.numel == |gradient| && c.indices == []
    && c.encoding == (if Compresses(cfg, round) then TopK else Dense)
    && Plus(Meaning(c), Prior(after, name, |gradient|)) == Effective(residuals, name, gradient)
  }

  // ---------- the whole-model paths ----------

  /** Offset of layer n in the concatenation of the present gradients. */
  function Offset(layers: seq<Layer>, n: nat): nat
    requires n <= |layers|
  {
    if n == 0 then 0
    else Offset(layers, n - 1) + (if layers[n-1].gradient.Some? then |layers[n-1].gradient.value| else 0)
  }

  function Concat(layers: seq<Layer>, residuals: Residuals, n: nat): (v: Vec)
    requires n <= |layers|
    ensures |v| == Offset(layers, n)
  {
    if n == 0 then []
    else
      Concat(layers, residuals, n - 1) +
      (if layers[n-1].gradient.Some? then Effective(residuals, layers[n-1].name, layers[n-1].gradient.value) else [])
  }

  lemma {:induction false} OffsetMonotone(layers: seq<Layer>, i: nat, j: nat)
    requires i <= j <= |layers|
    ensures Offset(layers, i) <= Offset(layers, j)
    decreases j
  {
    if i < j {
      OffsetMonotone(layers, i, j - 1);
    }
  }

  /** Element i of layer j is element Offset(j) + i of the concatenation. */
  lemma {:induction false} ConcatAt(layers: seq<Layer>, residuals: Residuals, n: nat, j: nat, i: nat)
    requires j < n <= |layers| && layers[j].gradient.Some? && i < |layers[j].gradient.value|
    ensures Offset(layers, j) + i < Offset(layers, n)
    ensures Concat(layers, residuals, n)[Offset(layers, j) + i]
         == Effective(residuals, layers[j].name, layers[j].gradient.value)[i]
  {
    if j < n - 1 {
      ConcatAt(layers, residuals, n - 1, j, i);
    }
  }

  /** The positions i below numel with offset + i selected, in increasing order (mask slice and nonzero). */
  function Local(selected: seq<int>, offset: nat, numel: nat): (indices: seq<int>) {
    if numel == 0 then []
    else
      var before := Local(selected, offset, numel - 1);
      if offset + numel - 1 in selected then before + [numel - 1] else before
  }

  lemma {:induction false} LocalIs(selected: seq<int>, offset: nat, numel: nat)
    ensures var indices := Local(selected, offset, numel);
            && Increasing(indices) && InBounds(indices, numel)
            && (forall i | 0 <= i < numel && offset + i in selected :: i in indices)
            && (forall p | 0 <= p < |indices| :: offset + indices[p] in selected)
  {
    if numel > 0 {
      LocalIs(selected, offset, numel - 1);
    }
  }

  lemma {:induction false} LocalCount(selected: seq<int>, offset: nat, numel: nat)
    ensures |Local(selected, offset, numel)| == Selected(selected, offset + numel) - Selected(selected, offset)
  {
    if numel > 0 {
      LocalCount(selected, offset, numel - 1);
    }
  }

  // ---------- what an extraction leaves behind ----------

  ghost predicate LayerExtracted(layer: Layer, order: nat, before: Residuals, selected: seq<int>, round: nat,
                                 chunk: Chunk, after: Residuals)
  {
    match layer.gradient
    case None =>
      chunk == EmptyChunk(layer.name, order, layer.numel, round) && layer.name !in after
    case Some(gradient) =>
      var effective := Effective(before, layer.name, gradient);
      && InBounds(selected, |effective|) && Packable(selected)
      && chunk == SparseChunk(layer.name, order, effective, selected, round)
      && layer.name in after && after[layer.name] == Residual(effective, selected)
  }

  /** Layer j sent exactly the positions selections[j]; only residuals of layers changed. */
  ghost predicate Extracted(layers: seq<Layer>, before: Residuals, selections: seq<seq<int>>, round: nat,
                            chunks: seq<Chunk>, after: Residuals)
    requires |selections| == |layers|
  {
    && |chunks| == |layers|
    && (forall j: nat | j < |layers| :: LayerExtracted(layers[j], j, before, selections[j], round, chunks[j], after))
    && Untouched(layers, |layers|, before, after)
  }

  ghost predicate Untouched(layers: seq<Layer>, n: nat, before: Residuals, after: Residuals)
    requires n <= |layers|
  {
    forall name: string | !Named(layers, n, name) ::
      (name in after <==> name in before) && (name in before ==> after[name] == before[name])
  }

  ghost predicate Named(layers: seq<Layer>, n: nat, name: string)
    requires n <= |layers|
  {
    exists j: nat | j < n :: layers[j].name == name
  }

  /** For every layer with a gradient, what it sends plus what it keeps is its effective gradient. */
  lemma ExtractionConserves(layers: seq<Layer>, before: Residuals, selections: seq<seq<int>>, round: nat,
                            chunks: seq<Chunk>, after: Residuals, j: nat)
    requires |selections| == |layers| && j < |layers| && layers[j].gradient.Some?
    requires Extracted(layers, before, selections, round, chunks, after)
    requires Distinct(selections[j])
    ensures var gradient := layers[j].gradient.value;
            && chunks[j].hasGrad && Decodable(chunks[j]) && chunks[j].numel == |gradient|
            && Plus(Meaning(chunks[j]), Prior(after, layers[j].name, |gradient|))
                 == Effective(before, layers[j].name, gradient)
  {
    assert LayerExtracted(layers[j], j, before, selections[j], round, chunks[j], after);
    SparseChunkConserves(layers[j].name, j, Effective(before, layers[j].name, layers[j].gradient.value), selections[j], round);
  }

  /** A layer without gradient sends nothing and, unlike on the hook path, loses what was kept for it: it
      conserves exactly when nothing was kept. */
  lemma AbsentConservesExactlyWhen(layers: seq<Layer>, before: Residuals, selections: seq<seq<int>>, round: nat,
                                   chunks: seq<Chunk>, after: Residuals, j: nat)
    requires |selections| == |layers| && j < |layers| && layers[j].gradient.None?
    requires Extracted(layers, before, selections, round, chunks, after)
    ensures var name, numel := layers[j].name, layers[j].numel;
            && !chunks[j].hasGrad && chunks[j].numel == numel
            && ((Plus(Meaning(chunks[j]), Prior(after, name, numel)) == Prior(before, name, numel)) <==>
                (Prior(before, name, numel) == Zeros(numel)))
  {
    assert LayerExtracted(layers[j], j, before, selections[j], round, chunks[j], after);
    assert Plus(Zeros(layers[j].numel), Zeros(layers[j].numel)) == Zeros(layers[j].numel);
  }

  /** The extraction stopped with an error at the layer after the finished chunks: its indices cannot be packed,
      and its residual is already stored. */
  ghost predicate Stopped(layers: seq<Layer>, before: Residuals, base: Residuals, selections: seq<seq<int>>, round: nat,
                          chunks: seq<Chunk>, after: Residuals)
    requires |selections| == |layers|
  {
    var n := |chunks|;
    && n < |layers| && layers[n].gradient.Some? && !Packable(selections[n])
    && InBounds(selections[n], |layers[n].gradient.value|)
    && (exists now: Residuals ::
          && ExtractedUpTo(layers, n, before, base, selections, round, chunks, now)
          && after == now[layers[n].name := Residual(Effective(before, layers[n].name, layers[n].gradient.value), selections[n])])
  }

  ghost predicate AllPackable(selections: seq<seq<int>>) {
    forall j | 0 <= j < |selections| :: Packable(selections[j])
  }

  // ---------- the two selections ----------

  ghost predicate SamplesFit(layers: seq<Layer>, cfg: Config, samples: seq<seq<int>>) {
    && |samples| == |layers|
    && (forall j | 0 <= j < |layers| && layers[j].gradient.Some? ::
          SampleFits(cfg, samples[j], |layers[j].gradient.value|))
  }

  /** Every layer selects for itself. */
  ghost function PerLayerSelections(layers: seq<Layer>, before: Residuals, cfg: Config, topk: TopK,
                                    samples: seq<seq<int>>): (s: seq<seq<int>>)
    requires GoodTopK(topk) && SamplesFit(layers, cfg, samples)
    ensures |s| == |layers|
  {
    seq(|layers|, j requires 0 <= j < |layers| => LayerSelection(layers[j], before, cfg, topk, samples[j]))
  }

  ghost function LayerSelection(layer: Layer, before: Residuals, cfg: Config, topk: TopK, sample: seq<int>): seq<int>
    requires GoodTopK(topk) && (layer.gradient.Some? ==> SampleFits(cfg, sample, |layer.gradient.value|))
  {
    match layer.gradient
    case None => []
    case Some(gradient) => Select(Effective(before, layer.name, gradient), cfg, topk, sample).indices
  }

  /** One layer is extracted, or its indices cannot be packed and only its residual is stored. */
  ghost predicate LayerDone(layer: Layer, order: nat, before: Residuals, selected: seq<int>, round: nat,
                            chunk: Option<Chunk>, now: Residuals, after: Residuals)
  {
    && (chunk.Some? <==> Packable(selected))
    && (chunk.Some? ==> LayerExtracted(layer, order, before, selected, round, chunk.value, after))
    && (chunk.Some? ==> forall name | name != layer.name ::
          (name in after <==> name in now) && (name in now ==> after[name] == now[name]))
    && (chunk.None? ==>
          && layer.gradient.Some? && InBounds(selected, |layer.gradient.value|)
          && after == now[layer.name := Residual(Effective(before, layer.name, layer.gradient.value), selected)])
  }

  /** One selection over the concatenation, cut back into the layers. */
  ghost function GlobalSelections(layers: seq<Layer>, selected: seq<int>): (s: seq<seq<int>>)
    ensures |s| == |layers|
  {
    seq(|layers|, j requires 0 <= j < |layers| => LayerShare(layers, selected, j))
  }

  /** The positions of layer j that were selected globally. */
  ghost function LayerShare(layers: seq<Layer>, selected: seq<int>, j: nat): seq<int>
    requires j < |layers|
  {
    match layers[j].gradient
    case None => []
    case Some(gradient) => Local(selected, Offset(layers, j), |gradient|)
  }

  lemma PerLayerConserves(layers: seq<Layer>, before: Residuals, cfg: Config, topk: TopK, samples: seq<seq<int>>,
                          round: nat, chunks: seq<Chunk>, after: Residuals, j: nat)
    requires GoodTopK(topk) && SamplesFit(layers, cfg, samples) && j < |layers| && layers[j].gradient.Some?
    requires Extracted(layers, before, PerLayerSelections(layers, before, cfg, topk, samples), round, chunks, after)
    ensures var gradient := layers[j].gradient.value;
            && chunks[j].hasGrad && Decodable(chunks[j]) && chunks[j].numel == |gradient|
            && Plus(Meaning(chunks[j]), Prior(after, layers[j].name, |gradient|))
                 == Effective(before, layers[j].name, gradient)
  {
    SelectionSound(Effective(before, layers[j].name, layers[j].gradient.value), cfg, topk, samples[j]);
    ExtractionConserves(layers, before, PerLayerSelections(layers, before, cfg, topk, samples), round, chunks, after, j);
  }

  /** Every layer with a gradient sends its largest values, as many as the configuration allows, under its name, its
      position and the round. */
  lemma PerLayerSends(layers: seq<Layer>, before: Residuals, cfg: Config, topk: TopK, samples: seq<seq<int>>,
                      round: nat, chunks: seq<Chunk>, after: Residuals, j: nat)
    requires GoodTopK(topk) && SamplesFit(layers, cfg, samples) && j < |layers| && layers[j].gradient.Some?
    requires Extracted(layers, before, PerLayerSelections(layers, before, cfg, topk, samples), round, chunks, after)
    ensures layers[j].name in after
    ensures About(chunks[j], layers[j].name, j, |layers[j].gradient.value|, round)
    ensures SendsLargest(cfg, Effective(before, layers[j].name, layers[j].gradient.value),
                         PerLayerSelections(layers, before, cfg, topk, samples)[j], chunks[j], after[layers[j].name])
  {
    var selections := PerLayerSelections(layers, before, cfg, topk, samples);
    SelectionSound(Effective(before, layers[j].name, layers[j].gradient.value), cfg, topk, samples[j]);
    assert LayerExtracted(layers[j], j, before, selections[j], round, chunks[j], after);
    PackedIndices(chunks[j], selections[j]);
  }

  /** The one selection over all layers is that of the largest values of the concatenation, as many as the
      configuration allows; every layer sends its share under its name, its position and the round. */
  lemma GlobalLargest(layers: seq<Layer>, before: Residuals, cfg: Config, topk: TopK, sample: seq<int>,
                      round: nat, chunks: seq<Chunk>, after: Residuals, j: nat)
    requires GoodTopK(topk) && SampleFits(cfg, sample, Offset(layers, |layers|))
    requires j < |layers| && layers[j].gradient.Some? && layers[j].gradient.value != []
    requires Extracted(layers, before, GlobalSelections(layers, GlobalSelected(layers, before, cfg, topk, sample)), round,
                       chunks, after)
    ensures var all, selected := Concat(layers, before, |layers|), GlobalSelected(layers, before, cfg, topk, sample);
            Selects(Magnitudes(all), selected) && SentCountSound(cfg, |all|, |selected|)
    ensures About(chunks[j], layers[j].name, j, |layers[j].gradient.value|, round) && chunks[j].encoding == TopK
  {
    var all := Concat(layers, before, |layers|);
    ConcatAt(layers, before, |layers|, j, 0);
    SelectionSound(all, cfg, topk, sample);
    var selections := GlobalSelections(layers, GlobalSelected(layers, before, cfg, topk, sample));
    assert LayerExtracted(layers[j], j, before, selections[j], round, chunks[j], after);
  }

  lemma GlobalConserves(layers: seq<Layer>, before: Residuals, selected: seq<int>,
                        round: nat, chunks: seq<Chunk>, after: Residuals, j: nat)
    requires j < |layers| && layers[j].gradient.Some?
    requires Extracted(layers, before, GlobalSelections(layers, selected), round, chunks, after)
    ensures var gradient := layers[j].gradient.value;
            && chunks[j].hasGrad && Decodable(chunks[j]) && chunks[j].numel == |gradient|
            && Plus(Meaning(chunks[j]), Prior(after, layers[j].name, |gradient|))
                 == Effective(before, layers[j].name, gradient)
  {
    LocalIs(selected, Offset(layers, j), |layers[j].gradient.value|);
    IncreasingDistinct(GlobalSelections(layers, selected)[j]);
    ExtractionConserves(layers, before, GlobalSelections(layers, selected), round, chunks, after, j);
  }

  /** One after another, the layers send the globally selected values of the concatenation, and keep the others. */
  lemma GlobalSends(layers: seq<Layer>, before: Residuals, selected: seq<int>,
                    round: nat, chunks: seq<Chunk>, after: Residuals, j: nat, i: nat)
    requires j < |layers| && layers[j].gradient.Some? && i < |layers[j].gradient.value|
    requires Extracted(layers, before, GlobalSelections(layers, selected), round, chunks, after)
    ensures chunks[j].hasGrad && Decodable(chunks[j]) && chunks[j].numel == |layers[j].gradient.value|
    ensures var g := Offset(layers, j) + i;
            && g < Offset(layers, |layers|)
            && var value := Concat(layers, before, |layers|)[g];
               && Meaning(chunks[j])[i] == (if g in selected then value else 0.0)
               && Prior(after, layers[j].name, |layers[j].gradient.value|)[i] == (if g in selected then 0.0 else value)
  {
    GlobalConserves(layers, before, selected, round, chunks, after, j);
    ConcatAt(layers, before, |layers|, j, i);
    ShareHas(layers, selected, j, i);
    LayerKeeps(layers, before, GlobalSelections(layers, selected), round, chunks, after, j, i);
    SentAt(Meaning(chunks[j]), Prior(after, layers[j].name, |layers[j].gradient.value|),
           Effective(before, layers[j].name, layers[j].gradient.value), GlobalSelections(layers, selected)[j], i);
  }

  lemma LayerKeeps(layers: seq<Layer>, before: Residuals, selections: seq<seq<int>>, round: nat,
                   chunks: seq<Chunk>, after: Residuals, j: nat, i: nat)
    requires |selections| == |layers| && Extracted(layers, before, selections, round, chunks, after)
    requires j < |layers| && layers[j].gradient.Some? && i < |layers[j].gradient.value|
    ensures Prior(after, layers[j].name, |layers[j].gradient.value|)[i]
         == if i in selections[j] then 0.0 else Effective(before, layers[j].name, layers[j].gradient.value)[i]
  {
    assert LayerExtracted(layers[j], j, before, selections[j], round, chunks[j], after);
  }

  lemma SentAt(sent: Vec, kept: Vec, effective: Vec, selected: seq<int>, i: nat)
    requires |sent| == |kept| && Plus(sent, kept) == effective
    requires i < |kept| && kept[i] == (if i in selected then 0.0 else effective[i])
    ensures sent[i] == if i in selected then effective[i] else 0.0
  {
    assert effective[i] == sent[i] + kept[i];
  }

  lemma ShareHas(layers: seq<Layer>, selected: seq<int>, j: nat, i: nat)
    requires j < |layers| && layers[j].gradient.Some? && i < |layers[j].gradient.value|
    ensures i in LayerShare(layers, selected, j) <==> Offset(layers, j) + i in selected
  {
    var mine := LayerShare(layers, selected, j);
    LocalIs(selected, Offset(layers, j), |layers[j].gradient.value|);
    if i in mine {
      var p :| 0 <= p < |mine| && mine[p] == i;
      assert Offset(layers, j) + mine[p] in selected;
    }
  }

  // ---------- the global selection comes back whole ----------

  /** Position g of the concatenation lies in layer j and is sent by it. */
  ghost predicate SentBy(layers: seq<Layer>, selected: seq<int>, j: nat, g: int)
    requires j < |layers|
  {
    && layers[j].gradient.Some?
    && (g - Offset(layers, j)) in LayerShare(layers, selected, j)
  }

  lemma {:induction false} OwnerOf(layers: seq<Layer>, n: nat, g: nat) returns (j: nat)
    requires n <= |layers| && g < Offset(layers, n)
    ensures j < n && layers[j].gradient.Some?
    ensures Offset(layers, j) <= g < Offset(layers, j) + |layers[j].gradient.value|
  {
    if g < Offset(layers, n - 1) {
      j := OwnerOf(layers, n - 1, g);
    } else {
      j := n - 1;
    }
  }

  /** Shifted by their offsets, the layers' lists are exactly the globally selected positions, each sent by
      one layer only. */
  lemma GlobalSplit(layers: seq<Layer>, selected: seq<int>, g: int)
    requires InBounds(selected, Offset(layers, |layers|))
    ensures g in selected <==> exists j: nat | j < |layers| :: SentBy(layers, selected, j, g)
    ensures forall i: nat, j: nat | i < j < |layers| :: !(SentBy(layers, selected, i, g) && SentBy(layers, selected, j, g))
  {
    if g in selected {
      var j := SelectedIsSent(layers, selected, g);
    }
    if exists j: nat | j < |layers| :: SentBy(layers, selected, j, g) {
      var j: nat :| j < |layers| && SentBy(layers, selected, j, g);
      SentIsSelected(layers, selected, j, g);
    }
    forall i: nat, j: nat | i < j < |layers| && SentBy(layers, selected, i, g)
      ensures !SentBy(layers, selected, j, g)
    {
      SentOnce(layers, selected, i, j, g);
    }
  }

  lemma SelectedIsSent(layers: seq<Layer>, selected: seq<int>, g: int) returns (j: nat)
    requires InBounds(selected, Offset(layers, |layers|)) && g in selected
    ensures j < |layers| && SentBy(layers, selected, j, g)
  {
    j := OwnerOf(layers, |layers|, g);
    LocalIs(selected, Offset(layers, j), |layers[j].gradient.value|);
    assert g == Offset(layers, j) + (g - Offset(layers, j));
  }

  lemma SentOnce(layers: seq<Layer>, selected: seq<int>, i: nat, j: nat, g: int)
    requires i < j < |layers| && SentBy(layers, selected, i, g)
    ensures !SentBy(layers, selected, j, g)
  {
    SentIsSelected(layers, selected, i, g);
    OffsetMonotone(layers, i + 1, j);
    if SentBy(layers, selected, j, g) {
      SentIsSelected(layers, selected, j, g);
    }
  }

  lemma SentIsSelected(layers: seq<Layer>, selected: seq<int>, j: nat, g: int)
    requires j < |layers| && SentBy(layers, selected, j, g)
    ensures g in selected && Offset(layers, j) <= g < Offset(layers, j + 1)
  {
    var mine := LayerShare(layers, selected, j);
    LocalIs(selected, Offset(layers, j), |layers[j].gradient.value|);
    var p :| 0 <= p < |mine| && mine[p] == g - Offset(layers, j);
    assert Offset(layers, j) + mine[p] == g;
  }

  /** How many values the first n layers send. */
  ghost function SentCount(layers: seq<Layer>, selected: seq<int>, n: nat): nat
    requires n <= |layers|
  {
    if n == 0 then 0 else SentCount(layers, selected, n - 1) + |LayerShare(layers, selected, n - 1)|
  }

  lemma SentCountNext(layers: seq<Layer>, selected: seq<int>, n: nat)
    requires n < |layers|
    ensures |LayerShare(layers, selected, n)|
         == Selected(selected, Offset(layers, n + 1)) - Selected(selected, Offset(layers, n))
  {
    if layers[n].gradient.Some? {
      LocalCount(selected, Offset(layers, n), |layers[n].gradient.value|);
    }
  }

  lemma {:induction false} SentCountIs(layers: seq<Layer>, selected: seq<int>, n: nat)
    requires n <= |layers|
    ensures SentCount(layers, selected, n) == Selected(selected, Offset(layers, n))
  {
    if n > 0 {
      SentCountIs(layers, selected, n - 1);
      SentCountNext(layers, selected, n - 1);
    }
  }

  lemma GlobalCount(layers: seq<Layer>, selected: seq<int>)
    requires Distinct(selected) && InBounds(selected, Offset(layers, |layers|))
    ensures SentCount(layers, selected, |layers|) == |selected|
  {
    SentCountIs(layers, selected, |layers|);
    SelectedCount(selected, Offset(layers, |layers|));
  }

  // ---------- the imperative side ----------

  /** The mask marks the selected positions. */
  predicate Masks(mask: seq<bool>, selected: seq<int>) {
    forall g | 0 <= g < |mask| :: mask[g] <==> g in selected
  }

  /** The flat mask that marks the selected positions. */
  method MarkSelected(numel: nat, selected: seq<int>) returns (mask: seq<bool>)
    requires InBounds(selected, numel)
    ensures |mask| == numel && Masks(mask, selected)
  {
    var marks := new bool[numel](i => false);
    for p := 0 to |selected|
      invariant forall g | 0 <= g < numel :: marks[g] <==> g in selected[..p]
    {
      assert selected[..p+1] == selected[..p] + [selected[p]];
      marks[selected[p]] := true;
    }
    assert selected[..|selected|] == selected;
    return marks[..];
  }

  method LocalIndices(mask: seq<bool>, selected: seq<int>, offset: nat, numel: nat) returns (indices: seq<int>)
    requires offset + numel <= |mask| && Masks(mask, selected)
    ensures indices == Local(selected, offset, numel)
  {
    indices := [];
    for i := 0 to numel
      invariant indices == Local(selected, offset, i)
    {
      if mask[offset + i] {
        indices := indices + [i];
      }
    }
  }

  /** What the first loop of the global path has gathered from n layers. */
  ghost predicate Collected(layers: seq<Layer>, before: Residuals, n: nat, entries: seq<Option<Vec>>, all: Vec, present: bool)
    requires n <= |layers|
  {
    && entries == Effectives(layers, before, n)
    && all == Concat(layers, before, n)
    && (present <==> exists j: nat | j < n :: layers[j].gradient.Some?)
  }

  lemma CollectedMore(layers: seq<Layer>, before: Residuals, n: nat, entries: seq<Option<Vec>>, all: Vec, present: bool)
    requires n < |layers| && Collected(layers, before, n, entries, all, present)
    ensures var entry := EffectiveOf(layers[n], before);
            Collected(layers, before, n + 1, entries + [entry], all + (if entry.Some? then entry.value else []),
                      present || entry.Some?)
  {
  }

  class CompressionState {
    var residuals: Residuals

    constructor ()
      ensures residuals == map[]
    {
      residuals := map[];
    }

    method CompressReadyGradient(name: string, order: nat, gradient: Vec, cfg: Config, topk: TopK,
                                 sample: seq<int>, round: nat) returns (chunk: Option<Chunk>)
      requires GoodTopK(topk) && SampleFits(cfg, sample, |gradient|)
      modifies this
      ensures Compressed(chunk, residuals)
           == CompressReady(name, order, gradient, cfg, topk, sample, old(residuals), round)
    {
      if !cfg.topK || round <= cfg.warmupSteps {
        return Some(DenseChunk(name, order, gradient, round));
      }
      var effective := EffectiveGradient(name, gradient);
      SelectionSound(effective, cfg, topk, sample);
      var selection := Select(effective, cfg, topk, sample);
      chunk := KeepRest(name, order, effective, selection.indices, round);
    }

    /** Sends the selected values and keeps the rest. */
    method KeepRest(name: string, order: nat, effective: Vec, indices: seq<int>, round: nat)
      returns (chunk: Option<Chunk>)
      requires InBounds(indices, |effective|)
      modifies this
      ensures chunk == PackedChunk(name, order, effective, indices, round)
      ensures residuals == old(residuals)[name := Residual(effective, indices)]
    {
      var residual := new real[|effective|](i requires 0 <= i < |effective| => effective[i]);
      for p := 0 to |indices|
        modifies residual
        invariant forall i | 0 <= i < |effective| :: residual[i] == if i in indices[..p] then 0.0 else effective[i]
      {
        assert indices[..p+1] == indices[..p] + [indices[p]];
        residual[indices[p]] := 0.0;
      }
      assert indices[..|indices|] == indices;
      var kept := residual[..];
      assert kept == Residual(effective, indices);
      residuals := residuals[name := kept];
      return PackedChunk(name, order, effective, indices, round);
    }

    method EffectiveGradient(name: string, gradient: Vec) returns (effective: Vec)
      ensures effective == Effective(residuals, name, gradient)
    {
      var residual := Zeros(|gradient|);
      if name in residuals && |residuals[name]| == |gradient| {
        residual := residuals[name];
      }
      return Plus(gradient, residual);
    }

    /** All layers are done, or the first one whose indices cannot be packed stops the extraction. */
    ghost predicate ExtractedOrStopped(layers: seq<Layer>, before: Residuals, base: Residuals, selections: seq<seq<int>>,
                                       round: nat, chunks: seq<Chunk>, raised: bool)
      requires |selections| == |layers|
      reads this
    {
      && (raised <==> !AllPackable(selections))
      && (!raised ==> Extracted(layers, before, selections, round, chunks, residuals))
      && (raised ==> Stopped(layers, before, base, selections, round, chunks, residuals))
    }

    method ExtractPerLayer(layers: seq<Layer>, cfg: Config, topk: TopK, samples: seq<seq<int>>, round: nat)
      returns (chunks: seq<Chunk>, raised: bool)
      requires WellFormed(layers) && GoodTopK(topk) && SamplesFit(layers, cfg, samples)
      modifies this
      ensures ExtractedOrStopped(layers, old(residuals), old(residuals),
                                 PerLayerSelections(layers, old(residuals), cfg, topk, samples), round, chunks, raised)
    {
      ghost var before := residuals;
      ghost var selections := PerLayerSelections(layers, before, cfg, topk, samples);
      chunks := [];
      for order := 0 to |layers|
        invariant ExtractedUpTo(layers, order, before, before, selections, round, chunks, residuals)
      {
        ghost var current := residuals;
        var chunk := ExtractLayer(layers, order, cfg, topk, samples[order], round, before);
        if chunk.None? {
          return chunks, true;
        }
        ExtractedNext(layers, order, before, before, selections, round, chunks, current, chunk.value, residuals);
        chunks := chunks + [chunk.value];
      }
      UpToPackable(layers, before, before, selections, round, chunks, residuals);
      return chunks, false;
    }

    method ExtractLayer(layers: seq<Layer>, order: nat, cfg: Config, topk: TopK, sample: seq<int>, round: nat,
                        ghost before: Residuals) returns (chunk: Option<Chunk>)
      requires WellFormed(layers) && order < |layers| && GoodTopK(topk)
      requires layers[order].gradient.Some? ==> SampleFits(cfg, sample, |layers[order].gradient.value|)
      requires Untouched(layers, order, before, residuals)
      modifies this
      ensures LayerDone(layers[order], order, before, LayerSelection(layers[order], before, cfg, topk, sample), round,
                        chunk, old(residuals), residuals)
    {
      var layer := layers[order];
      match layer.gradient
      case None =>
        residuals := residuals - {layer.name};
        return Some(EmptyChunk(layer.name, order, layer.numel, round));
      case Some(gradient) =>
        PriorKept(layers, order, before, residuals);
        var effective := EffectiveGradient(layer.name, gradient);
        SelectionSound(effective, cfg, topk, sample);
        var selection := Select(effective, cfg, topk, sample);
        chunk := KeepRest(layer.name, order, effective, selection.indices, round);
    }

    /** The first loop of the global path: the effective gradients, and their concatenation. */
    method CollectEffective(layers: seq<Layer>) returns (entries: seq<Option<Vec>>, all: Vec, present: bool)
      requires WellFormed(layers)
      modifies this
      ensures entries == Effectives(layers, old(residuals), |layers|)
      ensures all == Concat(layers, old(residuals), |layers|)
      ensures present <==> exists j: nat | j < |layers| :: layers[j].gradient.Some?
      ensures residuals == Dropped(layers, old(residuals), |layers|)
    {
      ghost var before := residuals;
      entries, all, present := [], [], false;
      for order := 0 to |layers|
        invariant Collected(layers, before, order, entries, all, present)
        invariant residuals == Dropped(layers, before, order)
      {
        var entry := CollectLayer(layers, order, before);
        CollectedMore(layers, before, order, entries, all, present);
        entries := entries + [entry];
        all := all + (if entry.Some? then entry.value else []);
        present := present || entry.Some?;
      }
    }

    method CollectLayer(layers: seq<Layer>, order: nat, ghost before: Residuals) returns (entry: Option<Vec>)
      requires WellFormed(layers) && order < |layers| && residuals == Dropped(layers, before, order)
      modifies this
      ensures entry == EffectiveOf(layers[order], before)
      ensures residuals == Dropped(layers, before, order + 1)
    {
      var layer := layers[order];
      match layer.gradient
      case None =>
        residuals := residuals - {layer.name};
        return None;
      case Some(gradient) =>
        DroppedPrior(layers, before, order);
        var effective := EffectiveGradient(layer.name, gradient);
        return Some(effective);
    }

    method ExtractGlobal(layers: seq<Layer>, cfg: Config, topk: TopK, sample: seq<int>, round: nat)
      returns (chunks: seq<Chunk>, raised: bool)
      requires WellFormed(layers) && GoodTopK(topk) && SampleFits(cfg, sample, Offset(layers, |layers|))
      modifies this
      ensures ExtractedOrStopped(layers, old(residuals), Dropped(layers, old(residuals), |layers|),
                                 GlobalSelections(layers, GlobalSelected(layers, old(residuals), cfg, topk, sample)),
                                 round, chunks, raised)
    {
      ghost var before := residuals;
      var entries, all, present := CollectEffective(layers);
      ghost var selections := GlobalSelections(layers, GlobalSelected(layers, before, cfg, topk, sample));
      if !present {
        chunks := EmptyChunks(layers, before, selections, round);
        return chunks, false;
      }
      GlobalSelectedSound(layers, before, cfg, topk, sample);
      var selection := Select(all, cfg, topk, sample);
      chunks, raised := SplitSelection(layers, entries, selection.indices, |all|, before, round);
    }

    method EmptyChunks(layers: seq<Layer>, ghost before: Residuals, ghost selections: seq<seq<int>>, round: nat)
      returns (chunks: seq<Chunk>)
      requires WellFormed(layers) && |selections| == |layers|
      requires forall j: nat | j < |layers| :: layers[j].gradient.None? && selections[j] == []
      requires residuals == Dropped(layers, before, |layers|)
      ensures ExtractedOrStopped(layers, before, residuals, selections, round, chunks, false)
    {
      chunks := [];
      for order := 0 to |layers|
        invariant ExtractedUpTo(layers, order, before, residuals, selections, round, chunks, residuals)
      {
        var chunk := EmptyChunk(layers[order].name, order, layers[order].numel, round);
        DroppedGone(layers, before, |layers|, order);
        ExtractedNext(layers, order, before, residuals, selections, round, chunks, residuals, chunk, residuals);
        chunks := chunks + [chunk];
      }
      GlobalExtracted(layers, before, selections, round, chunks, residuals);
    }

    /** The mask is cut into the layers' shares. */
    method SplitSelection(layers: seq<Layer>, entries: seq<Option<Vec>>, selected: seq<int>, total: nat,
                          ghost before: Residuals, round: nat) returns (chunks: seq<Chunk>, raised: bool)
      requires WellFormed(layers) && entries == Effectives(layers, before, |layers|)
      requires total == Offset(layers, |layers|) && InBounds(selected, total)
      requires residuals == Dropped(layers, before, |layers|)
      modifies this
      ensures ExtractedOrStopped(layers, before, Dropped(layers, before, |layers|),
                                 GlobalSelections(layers, selected), round, chunks, raised)
    {
      ghost var base := residuals;
      ghost var selections := GlobalSelections(layers, selected);
      SharesFit(layers, selected);
      var mask := MarkSelected(total, selected);
      ghost var n;
      chunks, raised, n := SendShares(layers, entries, mask, selected, before, round);
      SendingIs(layers, before, selections, round, n);
      if raised {
        StoppedNotPackable(layers, before, base, selections, round, chunks, residuals);
        return;
      }
      GlobalExtracted(layers, before, selections, round, chunks, residuals);
      UpToPackable(layers, before, base, selections, round, chunks, residuals);
    }

    /** The second loop of the global path, with a running offset. */
    method SendShares(layers: seq<Layer>, entries: seq<Option<Vec>>, mask: seq<bool>, selected: seq<int>,
                      ghost before: Residuals, round: nat) returns (chunks: seq<Chunk>, raised: bool, ghost n: nat)
      requires entries == Effectives(layers, before, |layers|)
      requires residuals == Dropped(layers, before, |layers|)
      requires Masks(mask, selected) && |mask| == Offset(layers, |layers|)
      requires SelectionsFit(layers, GlobalSelections(layers, selected))
      modifies this
      ensures n <= |layers| && (!raised ==> n == |layers|)
      ensures Progress(chunks, residuals, raised) == Sending(layers, before, GlobalSelections(layers, selected), round, n)
    {
      ghost var selections := GlobalSelections(layers, selected);
      var offset := 0;
      chunks, raised := [], false;
      for order := 0 to |layers|
        invariant offset == Offset(layers, order)
        invariant Progress(chunks, residuals, false) == Sending(layers, before, selections, round, order)
      {
        SendingStep(layers, before, selections, round, order + 1);
        OffsetMonotone(layers, order + 1, |layers|);
        chunks, raised := SendShare(layers, entries[order], order, mask, selected, offset, before, round, chunks);
        if raised {
          return chunks, raised, order + 1;
        }
        offset := NextOffset(layers, order, entries[order], offset, before);
      }
      n := |layers|;
    }

    method NextOffset(layers: seq<Layer>, order: nat, entry: Option<Vec>, offset: nat, ghost before: Residuals)
      returns (next: nat)
      requires order < |layers| && entry == EffectiveOf(layers[order], before) && offset == Offset(layers, order)
      ensures next == Offset(layers, order + 1)
    {
      next := if entry.Some? then offset + |entry.value| else offset;
    }

    /** One layer of the second loop. */
    method SendShare(layers: seq<Layer>, entry: Option<Vec>, order: nat, mask: seq<bool>, selected: seq<int>, offset: nat,
                     ghost before: Residuals, round: nat, sent: seq<Chunk>) returns (chunks: seq<Chunk>, raised: bool)
      requires order < |layers| && entry == EffectiveOf(layers[order], before) && offset == Offset(layers, order)
      requires Masks(mask, selected) && Offset(layers, order + 1) <= |mask|
      modifies this
      ensures layers[order].gradient.Some? ==> InBounds(LayerShare(layers, selected, order), |layers[order].gradient.value|)
      ensures Progress(chunks, residuals, raised)
           == SendLayer(Progress(sent, old(residuals), false), layers[order], order, before,
                        LayerShare(layers, selected, order), round)
    {
      match entry
      case None =>
        return sent + [EmptyChunk(layers[order].name, order, layers[order].numel, round)], false;
      case Some(effective) =>
        var local := LocalIndices(mask, selected, offset, |effective|);
        LocalIs(selected, offset, |effective|);
        var chunk := KeepRest(layers[order].name, order, effective, local, round);
        if chunk.None? {
          return sent, true;
        }
        return sent + [chunk.value], false;
    }
  }

  ghost predicate SelectionsFit(layers: seq<Layer>, selections: seq<seq<int>>) {
    && |selections| == |layers|
    && (forall j | 0 <= j < |layers| && layers[j].gradient.Some? :: InBounds(selections[j], |layers[j].gradient.value|))
  }

  lemma SharesFit(layers: seq<Layer>, selected: seq<int>)
    ensures SelectionsFit(layers, GlobalSelections(layers, selected))
  {
    forall j: nat | j < |layers| && layers[j].gradient.Some?
      ensures InBounds(GlobalSelections(layers, selected)[j], |layers[j].gradient.value|)
    {
      LocalIs(selected, Offset(layers, j), |layers[j].gradient.value|);
    }
  }

  datatype Progress = Progress(chunks: seq<Chunk>, residuals: Residuals, raised: bool)

  /** The second loop of the global path after n layers. */
  ghost function Sending(layers: seq<Layer>, before: Residuals, selections: seq<seq<int>>, round: nat, n: nat): Progress
    requires SelectionsFit(layers, selections) && n <= |layers|
  {
    if n == 0 then Progress([], Dropped(layers, before, |layers|), false)
    else
      var p := Sending(layers, before, selections, round, n - 1);
      if p.raised then p else SendLayer(p, layers[n-1], n - 1, before, selections[n-1], round)
  }

  ghost function SendLayer(p: Progress, layer: Layer, order: nat, before: Residuals, selected: seq<int>, round: nat): Progress
    requires layer.gradient.Some? ==> InBounds(selected, |layer.gradient.value|)
  {
    match layer.gradient
    case None => p.(chunks := p.chunks + [EmptyChunk(layer.name, order, layer.numel, round)])
    case Some(gradient) =>
      var effective := Effective(before, layer.name, gradient);
      var after := p.residuals[layer.name := Residual(effective, selected)];
      match PackedChunk(layer.name, order, effective, selected, round)
      case None => Progress(p.chunks, after, true)
      case Some(c) => Progress(p.chunks + [c], after, false)
  }

  lemma SendingStep(layers: seq<Layer>, before: Residuals, selections: seq<seq<int>>, round: nat, n: nat)
    requires SelectionsFit(layers, selections) && 0 < n <= |layers|
    requires !Sending(layers, before, selections, round, n - 1).raised
    ensures Sending(layers, before, selections, round, n)
         == SendLayer(Sending(layers, before, selections, round, n - 1), layers[n-1], n - 1, before, selections[n-1], round)
  {
  }

  ghost predicate SentUpTo(layers: seq<Layer>, before: Residuals, selections: seq<seq<int>>, round: nat, n: nat, p: Progress)
    requires |selections| == |layers| && n <= |layers|
  {
    if p.raised then
      Stopped(layers, before, Dropped(layers, before, |layers|), selections, round, p.chunks, p.residuals)
    else
      ExtractedUpTo(layers, n, before, Dropped(layers, before, |layers|), selections, round, p.chunks, p.residuals)
  }

  lemma NothingSent(layers: seq<Layer>, before: Residuals, selections: seq<seq<int>>, round: nat, n: nat)
    requires SelectionsFit(layers, selections) && n == 0
    ensures SentUpTo(layers, before, selections, round, n, Sending(layers, before, selections, round, n))
  {
  }

  lemma {:induction false} SendingIs(layers: seq<Layer>, before: Residuals, selections: seq<seq<int>>, round: nat, n: nat)
    requires WellFormed(layers) && SelectionsFit(layers, selections) && n <= |layers|
    ensures SentUpTo(layers, before, selections, round, n, Sending(layers, before, selections, round, n))
  {
    if n == 0 {
      NothingSent(layers, before, selections, round, n);
    } else {
      SendingIs(layers, before, selections, round, n - 1);
      SendingNext(layers, before, selections, round, n);
    }
  }

  lemma SendingNext(layers: seq<Layer>, before: Residuals, selections: seq<seq<int>>, round: nat, n: nat)
    requires WellFormed(layers) && SelectionsFit(layers, selections) && 0 < n <= |layers|
    requires SentUpTo(layers, before, selections, round, n - 1, Sending(layers, before, selections, round, n - 1))
    ensures SentUpTo(layers, before, selections, round, n, Sending(layers, before, selections, round, n))
  {
    var p := Sending(layers, before, selections, round, n - 1);
    if !p.raised {
      SendLayerIs(layers, before, selections, round, n - 1, p);
    }
  }

  lemma SendLayerIs(layers: seq<Layer>, before: Residuals, selections: seq<seq<int>>, round: nat, n: nat, p: Progress)
    requires WellFormed(layers) && SelectionsFit(layers, selections) && n < |layers| && !p.raised
    requires SentUpTo(layers, before, selections, round, n, p)
    ensures SentUpTo(layers, before, selections, round, n + 1, SendLayer(p, layers[n], n, before, selections[n], round))
  {
    var base := Dropped(layers, before, |layers|);
    var q := SendLayer(p, layers[n], n, before, selections[n], round);
    if !q.raised {
      DroppedNoneKept(layers, before);
      StillNoneKept(layers, base, n, p.residuals);
      ExtractedNext(layers, n, before, base, selections, round, p.chunks, p.residuals, q.chunks[n], q.residuals);
    }
  }

  /** The residuals once every layer below n without gradient has lost its own. */
  ghost function Dropped(layers: seq<Layer>, before: Residuals, n: nat): Residuals
    requires n <= |layers|
  {
    if n == 0 then before
    else if layers[n-1].gradient.Some? then Dropped(layers, before, n - 1)
    else Dropped(layers, before, n - 1) - {layers[n-1].name}
  }

  lemma {:induction false} DroppedUntouched(layers: seq<Layer>, before: Residuals, n: nat, name: string)
    requires n <= |layers| && !Named(layers, n, name)
    ensures name in Dropped(layers, before, n) <==> name in before
    ensures name in before ==> Dropped(layers, before, n)[name] == before[name]
  {
    if n > 0 {
      assert layers[n-1].name != name;
      assert !Named(layers, n - 1, name);
      DroppedUntouched(layers, before, n - 1, name);
    }
  }

  lemma {:induction false} DroppedGone(layers: seq<Layer>, before: Residuals, n: nat, j: nat)
    requires j < n <= |layers| && layers[j].gradient.None?
    ensures layers[j].name !in Dropped(layers, before, n)
  {
    if j < n - 1 {
      DroppedGone(layers, before, n - 1, j);
    }
  }

  lemma DroppedPrior(layers: seq<Layer>, before: Residuals, n: nat)
    requires n < |layers| && WellFormed(layers)
    ensures Prior(Dropped(layers, before, n), layers[n].name, layers[n].numel)
         == Prior(before, layers[n].name, layers[n].numel)
  {
    DroppedUntouched(layers, before, n, layers[n].name);
  }

  ghost function Effectives(layers: seq<Layer>, before: Residuals, n: nat): (e: seq<Option<Vec>>)
    requires n <= |layers|
    ensures |e| == n
  {
    seq(n, j requires 0 <= j < n => EffectiveOf(layers[j], before))
  }

  ghost function EffectiveOf(layer: Layer, before: Residuals): Option<Vec> {
    match layer.gradient
    case None => None
    case Some(gradient) => Some(Effective(before, layer.name, gradient))
  }

  /** No layer without gradient has a residual. */
  ghost predicate NoneKept(layers: seq<Layer>, residuals: Residuals) {
    forall j: nat | j < |layers| && layers[j].gradient.None? :: layers[j].name !in residuals
  }

  lemma DroppedNoneKept(layers: seq<Layer>, before: Residuals)
    ensures NoneKept(layers, Dropped(layers, before, |layers|))
  {
    forall j: nat | j < |layers| && layers[j].gradient.None?
      ensures layers[j].name !in Dropped(layers, before, |layers|)
    {
      DroppedGone(layers, before, |layers|, j);
    }
  }

  lemma StillNoneKept(layers: seq<Layer>, base: Residuals, n: nat, now: Residuals)
    requires n < |layers| && WellFormed(layers) && NoneKept(layers, base)
    requires Untouched(layers, n, base, now)
    ensures layers[n].gradient.None? ==> layers[n].name !in now
  {
    assert !Named(layers, n, layers[n].name);
  }

  ghost function GlobalSelected(layers: seq<Layer>, before: Residuals, cfg: Config, topk: TopK, sample: seq<int>)
    : (selected: seq<int>)
    requires GoodTopK(topk) && SampleFits(cfg, sample, Offset(layers, |layers|))
  {
    Select(Concat(layers, before, |layers|), cfg, topk, sample).indices
  }

  lemma GlobalSelectedSound(layers: seq<Layer>, before: Residuals, cfg: Config, topk: TopK, sample: seq<int>)
    requires GoodTopK(topk) && SampleFits(cfg, sample, Offset(layers, |layers|))
    ensures Selects(Magnitudes(Concat(layers, before, |layers|)), GlobalSelected(layers, before, cfg, topk, sample))
  {
    SelectionSound(Concat(layers, before, |layers|), cfg, topk, sample);
  }

  lemma GlobalExtracted(layers: seq<Layer>, before: Residuals, selections: seq<seq<int>>, round: nat,
                        chunks: seq<Chunk>, after: Residuals)
    requires |selections| == |layers|
    requires ExtractedUpTo(layers, |layers|, before, Dropped(layers, before, |layers|), selections, round, chunks, after)
    ensures Extracted(layers, before, selections, round, chunks, after)
  {
    forall name: string | !Named(layers, |layers|, name)
      ensures (name in after <==> name in before) && (name in before ==> after[name] == before[name])
    {
      DroppedUntouched(layers, before, |layers|, name);
    }
  }

  /** The loop invariant: layers below n are done, starting from the residuals `base`. */
  ghost predicate ExtractedUpTo(layers: seq<Layer>, n: nat, before: Residuals, base: Residuals,
                                selections: seq<seq<int>>, round: nat, chunks: seq<Chunk>, after: Residuals)
    requires n <= |layers| == |selections|
  {
    && |chunks| == n
    && (forall j: nat | j < n :: LayerExtracted(layers[j], j, before, selections[j], round, chunks[j], after))
    && Untouched(layers, n, base, after)
  }

  lemma StoppedNotPackable(layers: seq<Layer>, before: Residuals, base: Residuals, selections: seq<seq<int>>, round: nat,
                           chunks: seq<Chunk>, after: Residuals)
    requires |layers| == |selections| && Stopped(layers, before, base, selections, round, chunks, after)
    ensures !AllPackable(selections)
  {
  }

  lemma UpToPackable(layers: seq<Layer>, before: Residuals, base: Residuals, selections: seq<seq<int>>, round: nat,
                     chunks: seq<Chunk>, after: Residuals)
    requires |layers| == |selections|
    requires forall j: nat | j < |layers| && layers[j].gradient.None? :: selections[j] == []
    requires ExtractedUpTo(layers, |layers|, before, base, selections, round, chunks, after)
    ensures AllPackable(selections)
  {
    forall j: nat | j < |layers| ensures Packable(selections[j]) {
      assert LayerExtracted(layers[j], j, before, selections[j], round, chunks[j], after);
    }
  }

  lemma PriorKept(layers: seq<Layer>, n: nat, before: Residuals, now: Residuals)
    requires n < |layers| && WellFormed(layers) && Untouched(layers, n, before, now)
    ensures layers[n].name in now <==> layers[n].name in before
    ensures layers[n].name in now ==> now[layers[n].name] == before[layers[n].name]
  {
    assert !Named(layers, n, layers[n].name);
  }

  /** One more layer: nothing but its own residual changed. */
  lemma ExtractedNext(layers: seq<Layer>, n: nat, before: Residuals, base: Residuals, selections: seq<seq<int>>,
                      round: nat, chunks: seq<Chunk>, now: Residuals, chunk: Chunk, after: Residuals)
    requires n < |layers| == |selections| && WellFormed(layers)
    requires ExtractedUpTo(layers, n, before, base, selections, round, chunks, now)
    requires LayerExtracted(layers[n], n, before, selections[n], round, chunk, after)
    requires forall name | name != layers[n].name ::
               (name in after <==> name in now) && (name in now ==> after[name] == now[name])
    ensures ExtractedUpTo(layers, n + 1, before, base, selections, round, chunks + [chunk], after)
  {
    var longer := chunks + [chunk];
    forall j: nat | j < n + 1
      ensures LayerExtracted(layers[j], j, before, selections[j], round, longer[j], after)
    {
      if j < n {
        assert LayerExtracted(layers[j], j, before, selections[j], round, chunks[j], now);
        assert layers[j].name != layers[n].name;
      }
    }
    forall name: string | !Named(layers, n + 1, name)
      ensures (name in after <==> name in base) && (name in base ==> after[name] == base[name])
    {
      assert name != layers[n].name;
      assert !Named(layers, n, name);
    }
  }
}
