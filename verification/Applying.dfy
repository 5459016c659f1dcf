/** The receiving side: averaged chunks are checked and become the gradients of the model's parameters. */
module Applying {
  import opened Wrappers
  import opened Gradients
  import opened Indices
  import opened Averaging
  import opened GroupAveraging

  datatype Mismatch = Count | Name | Packing | Size | Duplicate | Bounds | Empty | Shape

  /** The checks one chunk has to pass; any encoding but top-k is read as dense, and a dense payload must not
      be empty. */
  predicate Accepts(name: string, numel: nat, c: Chunk) {
    && c.name == name
    && (c.hasGrad ==>
          && c.numel == numel
          && (if c.encoding == TopK then Decodable(c) else |c.values| == c.numel > 0))
  }

  /** The gradient that an accepted chunk stands for; None takes the gradient away. */
  function GradientOf(c: Chunk): Option<Vec>
    requires c.hasGrad && c.encoding == TopK ==> |IndicesOf(c)| == |c.values|
  {
    if !c.hasGrad then None
    else if c.encoding == TopK then Some(Scatter(c.numel, IndicesOf(c), c.values))
    else Some(c.values)
  }

  /** The receiver cannot read a dense answer for a parameter without elements. */
  predicate EmptyDense(chunks: seq<Chunk>, numel: nat) {
    numel == 0 && (exists d | d in chunks :: d.hasGrad) && !UsesCompression(chunks)
  }

  /** What the mean of the Workers' chunks becomes at the receiver; if no Worker had a gradient, the parameter
      gets none. */
  function MeanGradient(chunks: seq<Chunk>, numel: nat): Option<Vec>
    requires chunks != [] && AllDecodable(chunks, numel)
  {
    if exists d | d in chunks :: d.hasGrad then Some(Mean(chunks, numel)) else None
  }

  /** What the Master answers for a parameter is accepted there, packed indices included, and rebuilds the mean
      of the Workers' gradients; only a dense answer without elements is refused. */
  lemma AnswerAccepted(name: string, numel: nat, chunks: seq<Chunk>, c: Chunk)
    requires chunks != [] && AllDecodable(chunks, numel) && AnswerOf(chunks, numel, c) && c.name == name
    ensures Accepts(name, numel, c) <==> !EmptyDense(chunks, numel)
    ensures Accepts(name, numel, c) ==> GradientOf(c) == MeanGradient(chunks, numel)
  {
    AnswerMeansMean(chunks, numel, c);
  }

  /** One Worker, one parameter without elements: the answer is the Worker's own chunk, and it is refused. */
  lemma EmptyDenseExample()
    ensures var c := Chunk("empty", 0, 0, true, Dense, [], [], [], 1);
            && AllDecodable([c], 0) && Averageable([c], 0) && AnswerOf([c], 0, c)
            && !Accepts("empty", 0, c)
  {
    var c := Chunk("empty", 0, 0, true, Dense, [], [], [], 1);
    assert c in [c];
    assert Mean([c], 0) == [];
    AnswerAccepted("empty", 0, [c], c);
  }

  lemma ListedMembers(s: Submissions, ws: seq<Worker>, m: nat, c: Chunk)
    requires Lists(ws, s) && MemberMean(s, m, c)
    ensures forall w | w in ws :: m < |s[w].chunks|
    ensures var chunks := Members(s, ws, m);
            chunks != [] && AllDecodable(chunks, c.numel) && AnswerOf(chunks, c.numel, c)
  {
  }

  /** So does every member of an averaged group, in whatever order the Workers are listed. */
  lemma MemberAccepted(s: Submissions, ws: seq<Worker>, m: nat, c: Chunk)
    requires Lists(ws, s) && MemberMean(s, m, c)
    ensures forall w | w in ws :: m < |s[w].chunks|
    ensures var chunks := Members(s, ws, m);
            && chunks != [] && AllDecodable(chunks, c.numel)
            && (Accepts(c.name, c.numel, c) <==> !EmptyDense(chunks, c.numel))
            && (Accepts(c.name, c.numel, c) ==> GradientOf(c) == MeanGradient(chunks, c.numel))
  {
    ListedMembers(s, ws, m, c);
    AnswerAccepted(c.name, c.numel, Members(s, ws, m), c);
  }

  class Parameter {
    const name: string
    const numel: nat
    var grad: array?<real>

    constructor (name: string, numel: nat)
      ensures this.name == name && this.numel == numel && grad == null
    {
      this.name := name;
      this.numel := numel;
      grad := null;
    }

    /** The framework keeps a gradient and its parameter at the same size. */
    ghost predicate Valid()
      reads this
    {
      grad != null ==> grad.Length == numel
    }

    ghost function Gradient(): Option<Vec>
      reads this, grad
    {
      if grad == null then None else Some(grad[..])
    }

    /** A gradient tensor of the right size is cleared and used again. */
    method ZeroSparseGradient(numel: nat) returns (gradient: array<real>)
      modifies grad
      ensures gradient[..] == Zeros(numel)
      ensures fresh(gradient) || gradient == grad
      ensures gradient != grad ==> Gradient() == old(Gradient())
    {
      if grad != null && grad.Length == numel {
        gradient := grad;
        for i := 0 to gradient.Length
          invariant forall j | 0 <= j < i :: gradient[j] == 0.0
        {
          gradient[i] := 0.0;
        }
      } else {
        gradient := new real[numel](i => 0.0);
      }
    }

    /** Checks come before the first write. */
    method SparseChunkToTensor(c: Chunk) returns (gradient: array<real>, bad: Option<Mismatch>)
      requires c.hasGrad && c.encoding == TopK
      modifies grad
      ensures bad.None? <==> Decodable(c)
      ensures bad.None? ==> gradient[..] == Scatter(c.numel, IndicesOf(c), c.values)
      ensures bad.None? ==> fresh(gradient) || gradient == grad
      ensures gradient != grad ==> Gradient() == old(Gradient())
      ensures bad.Some? ==> Gradient() == old(Gradient())
      ensures bad.Some? ==> bad.value in {Packing, Size, Duplicate, Bounds}
    {
      gradient := new real[0];
      AlignedIs(|c.packed|);
      if |c.packed| % 4 != 0 {
        return gradient, Some(Packing);
      }
      var indices: seq<int> := if c.packed != [] then Unpacked(c.packed) else c.indices;
      assert indices == IndicesOf(c);
      gradient, bad := PairsToTensor(c.numel, indices, c.values);
    }

    method PairsToTensor(numel: nat, indices: seq<int>, values: seq<real>)
      returns (gradient: array<real>, bad: Option<Mismatch>)
      modifies grad
      ensures bad.None? <==> ValidPairs(numel, indices, values)
      ensures bad.None? ==> gradient[..] == Scatter(numel, indices, values)
      ensures bad.None? ==> fresh(gradient) || gradient == grad
      ensures gradient != grad ==> Gradient() == old(Gradient())
      ensures bad.Some? ==> Gradient() == old(Gradient())
      ensures bad.Some? ==> bad.value in {Size, Duplicate, Bounds}
    {
      gradient := new real[0];
      if |values| != |indices| {
        return gradient, Some(Size);
      }
      if indices == [] {
        gradient := ZeroSparseGradient(numel);
        assert gradient[..] == Scatter(numel, indices, values);
        return gradient, None;
      }
      var repeated := exists i, j | 0 <= i < j < |indices| :: indices[i] == indices[j];
      if repeated {
        return gradient, Some(Duplicate);
      }
      if exists i | 0 <= i < |indices| :: indices[i] < 0 || indices[i] >= numel {
        return gradient, Some(Bounds);
      }
      gradient := ZeroSparseGradient(numel);
      for n := 0 to |indices|
        modifies gradient
        invariant gradient.Length == numel
        invariant forall i | 0 <= i < numel :: gradient[i] == At(indices, values, n, i)
      {
        gradient[indices[n]] := values[n];
      }
      assert gradient[..] == Scatter(numel, indices, values);
      return gradient, None;
    }

    /** One chunk: rejected without a trace, or the gradient is what the chunk stands for. */
    method Apply(c: Chunk) returns (bad: Option<Mismatch>)
      requires Valid()
      modifies this`grad, grad
      ensures Valid()
      ensures bad.None? <==> Accepts(name, numel, c)
      ensures bad.None? ==> Gradient() == GradientOf(c)
      ensures bad.Some? ==> Gradient() == old(Gradient())
      ensures grad == null || grad == old(grad) || fresh(grad)
    {
      if c.name != name {
        return Some(Name);
      }
      if !c.hasGrad {
        grad := null;
        return None;
      }
      if c.encoding == TopK {
        var gradient;
        gradient, bad := SparseChunkToTensor(c);
        if bad.Some? {
          return;
        }
        if c.numel != numel {
          return Some(Shape);
        }
        grad := gradient;
        return None;
      }
      if |c.values| != c.numel {
        return Some(Size);
      }
      if c.numel == 0 {
        return Some(Empty);
      }
      if c.numel != numel {
        return Some(Shape);
      }
      grad := new real[c.numel](i requires 0 <= i < |c.values| => c.values[i]);
      assert grad[..] == c.values;
      return None;
    }
  }

  ghost function Storage(parameters: seq<Parameter>): set<object>
    reads parameters
  {
    set p | p in parameters && p.grad != null :: p.grad as object
  }

  /** Different parameters, with gradients that share no memory. */
  ghost predicate Separate(parameters: seq<Parameter>)
    reads parameters
  {
    && (forall i | 0 <= i < |parameters| :: parameters[i].Valid())
    && (forall i, j | 0 <= i < j < |parameters| :: parameters[i] != parameters[j])
    && (forall i, j | 0 <= i < j < |parameters| && parameters[i].grad != null :: parameters[i].grad != parameters[j].grad)
  }

  /** One chunk is applied; the other parameters keep their gradients. */
  method ApplyAt(parameters: seq<Parameter>, n: nat, c: Chunk) returns (bad: Option<Mismatch>)
    requires Separate(parameters) && n < |parameters|
    modifies parameters[n], parameters[n].grad
    ensures Separate(parameters)
    ensures bad.None? <==> Accepts(parameters[n].name, parameters[n].numel, c)
    ensures parameters[n].Gradient() == if bad.None? then GradientOf(c) else old(parameters[n].Gradient())
    ensures parameters[n].grad == null || parameters[n].grad == old(parameters[n].grad) || fresh(parameters[n].grad)
    ensures forall i | 0 <= i < |parameters| && i != n ::
              parameters[i].grad == old(parameters[i].grad) && parameters[i].Gradient() == old(parameters[i].Gradient())
  {
    bad := parameters[n].Apply(c);
  }

  /** Chunks are applied in order until one is rejected: those before it stay applied, it and everything after
      keep their gradients. */
  method ApplyGradientChunks(parameters: seq<Parameter>, chunks: seq<Chunk>)
    returns (applied: nat, bad: Option<Mismatch>)
    requires Separate(parameters)
    modifies parameters, Storage(parameters)
    ensures Separate(parameters)
    ensures bad.None? <==>
              && |parameters| == |chunks|
              && (forall i | 0 <= i < |parameters| :: Accepts(parameters[i].name, parameters[i].numel, chunks[i]))
    ensures applied <= |parameters| && (bad.None? ==> applied == |parameters|)
    ensures |parameters| != |chunks| ==> applied == 0
    ensures |parameters| == |chunks| ==>
              && (forall i | 0 <= i < applied :: Accepts(parameters[i].name, parameters[i].numel, chunks[i]))
              && (bad.Some? ==> applied < |parameters|)
              && (bad.Some? ==> !Accepts(parameters[applied].name, parameters[applied].numel, chunks[applied]))
              && (forall i | 0 <= i < applied :: parameters[i].Gradient() == GradientOf(chunks[i]))
    ensures forall i | applied <= i < |parameters| :: parameters[i].Gradient() == old(parameters[i].Gradient())
  {
    if |parameters| != |chunks| {
      return 0, Some(Count);
    }
    for n := 0 to |parameters|
      invariant Separate(parameters)
      invariant forall i | 0 <= i < |parameters| && parameters[i].grad != null ::
                  parameters[i].grad == old(parameters[i].grad) || fresh(parameters[i].grad)
      invariant forall i | 0 <= i < n :: Accepts(parameters[i].name, parameters[i].numel, chunks[i])
      invariant forall i | 0 <= i < n :: parameters[i].Gradient() == GradientOf(chunks[i])
      invariant forall i | n <= i < |parameters| :: parameters[i].Gradient() == old(parameters[i].Gradient())
    {
      assert parameters[n].grad == null || parameters[n].grad == old(parameters[n].grad) || fresh(parameters[n].grad);
      bad := ApplyAt(parameters, n, chunks[n]);
      if bad.Some? {
        return n, bad;
      }
    }
    return |parameters|, None;
  }
}
