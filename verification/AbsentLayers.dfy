/** Runs of whole-model extractions: what is lost when a layer gets no gradient in a step. */
module AbsentLayers {
  import opened Wrappers
  import opened Gradients
  import opened Indices
  import opened Compression
  import opened Extraction

  /** One extraction: the layers with this step's gradients, the positions that were sent, and the chunks. */
  datatype Step = Step(layers: seq<Layer>, selections: seq<seq<int>>, round: nat, chunks: seq<Chunk>)

  /** Steps of one model, with the residuals before the first and after every step. */
  datatype Run = Run(steps: seq<Step>, kept: seq<Residuals>)

  ghost predicate StepOk(x: Step, before: Residuals, after: Residuals) {
    && |x.selections| == |x.layers|
    && (forall j: nat | j < |x.layers| :: Distinct(x.selections[j]))
    && Extracted(x.layers, before, x.selections, x.round, x.chunks, after)
  }

  predicate SameLayers(a: seq<Layer>, b: seq<Layer>) {
    |a| == |b| && forall j: nat | j < |a| :: a[j].name == b[j].name && a[j].numel == b[j].numel
  }

  ghost predicate Linked(run: Run, model: seq<Layer>, t: nat)
    requires t < |run.steps| && |run.kept| == |run.steps| + 1
  {
    && WellFormed(run.steps[t].layers) && SameLayers(run.steps[t].layers, model)
    && StepOk(run.steps[t], run.kept[t], run.kept[t+1])
  }

  /** Nothing is kept at the start. */
  ghost predicate RunOk(run: Run, model: seq<Layer>) {
    && |run.kept| == |run.steps| + 1 && run.kept[0] == map[]
    && forall t: nat | t < |run.steps| :: Linked(run, model, t)
  }

  /** Position i of layer j. */
  predicate Within(model: seq<Layer>, j: nat, i: nat) {
    j < |model| && i < model[j].numel
  }

  // ---------- the ledger of one position ----------

  ghost function KeptAt(run: Run, model: seq<Layer>, j: nat, i: nat, t: nat): real
    requires RunOk(run, model) && Within(model, j, i) && t <= |run.steps|
  {
    Prior(run.kept[t], model[j].name, model[j].numel)[i]
  }

  /** The local gradient; zero if there is none. */
  ghost function LocalAt(run: Run, model: seq<Layer>, j: nat, i: nat, t: nat): real
    requires RunOk(run, model) && Within(model, j, i) && t < |run.steps|
  {
    assert Linked(run, model, t);
    match run.steps[t].layers[j].gradient
    case None => 0.0
    case Some(gradient) => gradient[i]
  }

  /** What a step throws away: everything that was kept, if the layer has no gradient. */
  ghost function DroppedAt(run: Run, model: seq<Layer>, j: nat, i: nat, t: nat): real
    requires RunOk(run, model) && Within(model, j, i) && t < |run.steps|
  {
    assert Linked(run, model, t);
    if run.steps[t].layers[j].gradient.None? then KeptAt(run, model, j, i, t) else 0.0
  }

  /** Every chunk of a run can be read. */
  lemma StepReadable(run: Run, model: seq<Layer>, j: nat, t: nat)
    requires RunOk(run, model) && j < |model| && t < |run.steps|
    ensures |run.steps[t].chunks| == |model|
    ensures var c := run.steps[t].chunks[j]; c.numel == model[j].numel && (c.hasGrad ==> Decodable(c))
  {
    assert Linked(run, model, t);
    var x := run.steps[t];
    assert LayerExtracted(x.layers[j], j, run.kept[t], x.selections[j], x.round, x.chunks[j], run.kept[t+1]);
    if x.layers[j].gradient.Some? {
      ExtractionConserves(x.layers, run.kept[t], x.selections, x.round, x.chunks, run.kept[t+1], j);
    }
  }

  ghost function SentAt(run: Run, model: seq<Layer>, j: nat, i: nat, t: nat): real
    requires RunOk(run, model) && Within(model, j, i) && t < |run.steps|
  {
    StepReadable(run, model, j, t);
    Meaning(run.steps[t].chunks[j])[i]
  }

  lemma StepBalances(run: Run, model: seq<Layer>, j: nat, i: nat, t: nat)
    requires RunOk(run, model) && Within(model, j, i) && t < |run.steps|
    ensures SentAt(run, model, j, i, t) + KeptAt(run, model, j, i, t + 1) + DroppedAt(run, model, j, i, t)
         == LocalAt(run, model, j, i, t) + KeptAt(run, model, j, i, t)
  {
    assert Linked(run, model, t);
    StepReadable(run, model, j, t);
    var x := run.steps[t];
    assert LayerExtracted(x.layers[j], j, run.kept[t], x.selections[j], x.round, x.chunks[j], run.kept[t+1]);
    if x.layers[j].gradient.Some? {
      ExtractionConserves(x.layers, run.kept[t], x.selections, x.round, x.chunks, run.kept[t+1], j);
      var gradient := x.layers[j].gradient.value;
      assert Plus(Meaning(x.chunks[j]), Prior(run.kept[t+1], model[j].name, |gradient|))[i]
          == Effective(run.kept[t], model[j].name, gradient)[i];
    }
  }

  ghost function SentSum(run: Run, model: seq<Layer>, j: nat, i: nat, r: nat): real
    requires RunOk(run, model) && Within(model, j, i) && r <= |run.steps|
  {
    if r == 0 then 0.0 else SentSum(run, model, j, i, r - 1) + SentAt(run, model, j, i, r - 1)
  }

  ghost function LocalSum(run: Run, model: seq<Layer>, j: nat, i: nat, r: nat): real
    requires RunOk(run, model) && Within(model, j, i) && r <= |run.steps|
  {
    if r == 0 then 0.0 else LocalSum(run, model, j, i, r - 1) + LocalAt(run, model, j, i, r - 1)
  }

  ghost function DroppedSum(run: Run, model: seq<Layer>, j: nat, i: nat, r: nat): real
    requires RunOk(run, model) && Within(model, j, i) && r <= |run.steps|
  {
    if r == 0 then 0.0 else DroppedSum(run, model, j, i, r - 1) + DroppedAt(run, model, j, i, r - 1)
  }

  /** What was sent, what is kept and what was dropped add up to the local gradients. */
  lemma {:induction false} Ledger(run: Run, model: seq<Layer>, j: nat, i: nat, r: nat)
    requires RunOk(run, model) && Within(model, j, i) && r <= |run.steps|
    ensures SentSum(run, model, j, i, r) + KeptAt(run, model, j, i, r) + DroppedSum(run, model, j, i, r)
         == LocalSum(run, model, j, i, r)
  {
    if r > 0 {
      Ledger(run, model, j, i, r - 1);
      StepBalances(run, model, j, i, r - 1);
    }
  }

  /** Error feedback's promise after r steps. */
  ghost predicate Conserved(run: Run, model: seq<Layer>, j: nat, i: nat, r: nat)
    requires RunOk(run, model) && Within(model, j, i) && r <= |run.steps|
  {
    SentSum(run, model, j, i, r) + KeptAt(run, model, j, i, r) == LocalSum(run, model, j, i, r)
  }

  /** Whole-model extractions keep the promise throughout a run exactly when every step in which the layer has no
      gradient finds nothing kept for it. */
  lemma ConservesExactlyWhen(run: Run, model: seq<Layer>, j: nat, i: nat)
    requires RunOk(run, model) && Within(model, j, i)
    ensures (forall r: nat | r <= |run.steps| :: Conserved(run, model, j, i, r)) <==>
            (forall t: nat | t < |run.steps| :: DroppedAt(run, model, j, i, t) == 0.0)
  {
    forall r: nat | r <= |run.steps|
      ensures Conserved(run, model, j, i, r) <==> DroppedSum(run, model, j, i, r) == 0.0
    {
      Ledger(run, model, j, i, r);
    }
    if forall r: nat | r <= |run.steps| :: Conserved(run, model, j, i, r) {
      forall t: nat | t < |run.steps| ensures DroppedAt(run, model, j, i, t) == 0.0 {
        assert Conserved(run, model, j, i, t) && Conserved(run, model, j, i, t + 1);
      }
    }
    if forall t: nat | t < |run.steps| :: DroppedAt(run, model, j, i, t) == 0.0 {
      forall r: nat | r <= |run.steps| ensures DroppedSum(run, model, j, i, r) == 0.0 {
        NothingDropped(run, model, j, i, r);
      }
    }
  }

  lemma {:induction false} NothingDropped(run: Run, model: seq<Layer>, j: nat, i: nat, r: nat)
    requires RunOk(run, model) && Within(model, j, i) && r <= |run.steps|
    requires forall t: nat | t < |run.steps| :: DroppedAt(run, model, j, i, t) == 0.0
    ensures DroppedSum(run, model, j, i, r) == 0.0
  {
    if r > 0 {
      NothingDropped(run, model, j, i, r - 1);
    }
  }

  // ---------- a run that loses something ----------

  function TheLayer(gradient: Option<Vec>): seq<Layer> {
    [Layer("fc.bias", 2, gradient)]
  }

  /** One of two values is sent; in the next step the layer gets no gradient. */
  ghost function TheRun(): Run {
    Run([Step(TheLayer(Some([1.0, 2.0])), [[1]], 1, [SparseChunk("fc.bias", 0, [1.0, 2.0], [1], 1)]),
         Step(TheLayer(None), [[]], 2, [EmptyChunk("fc.bias", 0, 2, 2)])],
        [map[], map["fc.bias" := [1.0, 0.0]], map[]])
  }

  /** The value that was kept in the first step is gone after the second. */
  lemma LossExample()
    ensures RunOk(TheRun(), TheLayer(None)) && !Conserved(TheRun(), TheLayer(None), 0, 0, 2)
  {
    FirstStep();
    SecondStep();
    var run, model := TheRun(), TheLayer(None);
    assert Linked(run, model, 0) && Linked(run, model, 1);
    assert DroppedAt(run, model, 0, 0, 0) == 0.0;
    assert DroppedAt(run, model, 0, 0, 1) == 1.0;
    assert DroppedSum(run, model, 0, 0, 1) == 0.0;
    assert DroppedSum(run, model, 0, 0, 2) == 1.0;
    Ledger(run, model, 0, 0, 2);
  }

  lemma FirstStep()
    ensures Linked(TheRun(), TheLayer(None), 0)
  {
    var before: Residuals, after: Residuals := map[], map["fc.bias" := [1.0, 0.0]];
    var gradient: Vec := [1.0, 2.0];
    assert Effective(before, "fc.bias", gradient) == gradient;
    assert Residual(gradient, [1]) == [1.0, 0.0];
    assert LayerExtracted(TheLayer(Some(gradient))[0], 0, before, [1], 1, SparseChunk("fc.bias", 0, gradient, [1], 1), after);
    OnlyNamed(TheLayer(Some(gradient)), before, after);
  }

  lemma SecondStep()
    ensures Linked(TheRun(), TheLayer(None), 1)
  {
    OnlyNamed(TheLayer(None), map["fc.bias" := [1.0, 0.0]], map[]);
  }

  lemma OnlyNamed(layers: seq<Layer>, before: Residuals, after: Residuals)
    requires |layers| == 1 && forall name | name != layers[0].name :: name !in before && name !in after
    ensures Untouched(layers, 1, before, after)
  {
    forall name: string | !Named(layers, 1, name) ensures name !in before && name !in after {
      assert layers[0].name != name;
    }
  }
}
