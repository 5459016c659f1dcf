/** How the layers of a model are fused into the groups that travel together. */
module Grouping {
  import opened Gradients
  import opened PreparedSpec

  function EstimatedBytes(layer: Layer): nat {
    (if layer.numel < 1 then 1 else layer.numel) * 4
  }

  predicate LayersOf(layers: seq<Layer>, orders: seq<nat>) {
    forall i | 0 <= i < |orders| :: orders[i] < |layers|
  }

  function BytesOf(layers: seq<Layer>, orders: seq<nat>): nat
    requires LayersOf(layers, orders)
  {
    if orders == [] then 0
    else BytesOf(layers, orders[..|orders| - 1]) + EstimatedBytes(layers[orders[|orders| - 1]])
  }

  function Elements(layers: seq<Layer>, orders: seq<nat>): nat
    requires LayersOf(layers, orders)
  {
    if orders == [] then 0
    else Elements(layers, orders[..|orders| - 1]) + layers[orders[|orders| - 1]].numel
  }

  function Empties(layers: seq<Layer>, orders: seq<nat>): nat
    requires LayersOf(layers, orders)
  {
    if orders == [] then 0
    else Empties(layers, orders[..|orders| - 1]) + (if layers[orders[|orders| - 1]].numel == 0 then 1 else 0)
  }

  /** The estimate is that of binary32 elements, where a layer without elements counts as one. */
  lemma {:induction false} BytesCount(layers: seq<Layer>, orders: seq<nat>)
    requires LayersOf(layers, orders)
    ensures BytesOf(layers, orders) == 4 * (Elements(layers, orders) + Empties(layers, orders))
    decreases |orders|
  {
    if orders != [] {
      BytesCount(layers, orders[..|orders| - 1]);
    }
  }

  /** A group keeps to the limits unless it holds a single layer. */
  predicate WithinLimits(layers: seq<Layer>, orders: seq<nat>, maxTensors: nat, maxBytes: nat)
    requires LayersOf(layers, orders)
  {
    |orders| >= 2 ==> |orders| <= maxTensors && BytesOf(layers, orders) <= maxBytes
  }

  /** The layers from `lo` up to, not including, `hi`. */
  function Span(lo: nat, hi: nat): (s: seq<nat>)
    requires lo <= hi
    ensures |s| == hi - lo
    ensures forall i | 0 <= i < |s| :: s[i] == lo + i
  {
    seq(hi - lo, i requires 0 <= i < hi - lo => lo + i)
  }

  lemma InSpan(lo: nat, hi: nat, l: nat)
    requires lo <= hi
    ensures l in Span(lo, hi) <==> lo <= l < hi
  {
    if lo <= l < hi {
      assert Span(lo, hi)[l - lo] == l;
    }
  }

  /** Descending orders, as the loop collects them. */
  function Down(lo: nat, hi: nat): (s: seq<nat>)
    requires lo <= hi
    ensures |s| == hi - lo
    ensures forall i | 0 <= i < |s| :: s[i] == hi - 1 - i
  {
    seq(hi - lo, i requires 0 <= i < hi - lo => hi - 1 - i)
  }

  lemma {:induction false} BytesReversed(layers: seq<Layer>, lo: nat, hi: nat)
    requires lo <= hi <= |layers|
    ensures BytesOf(layers, Down(lo, hi)) == BytesOf(layers, Span(lo, hi))
    decreases hi - lo
  {
    if lo < hi {
      assert Down(lo, hi)[..hi - lo - 1] == Down(lo + 1, hi);
      BytesReversed(layers, lo + 1, hi);
      BytesFirst(layers, lo, hi);
    }
  }

  lemma {:induction false} BytesFirst(layers: seq<Layer>, lo: nat, hi: nat)
    requires lo < hi <= |layers|
    ensures BytesOf(layers, Span(lo, hi)) == EstimatedBytes(layers[lo]) + BytesOf(layers, Span(lo + 1, hi))
    decreases hi
  {
    assert Span(lo, hi)[..hi - lo - 1] == Span(lo, hi - 1);
    if lo + 1 < hi {
      assert Span(lo + 1, hi)[..hi - lo - 2] == Span(lo + 1, hi - 1);
      BytesFirst(layers, lo, hi - 1);
    } else {
      assert Span(lo, hi - 1) == [] && Span(lo + 1, hi) == [];
    }
  }

  /** Groups are spans of layers that follow each other downwards from the last layer to layer n. */
  ghost predicate Tiles(layers: seq<Layer>, groups: seq<seq<nat>>, n: nat)
    decreases |groups|
  {
    if groups == [] then n == |layers|
    else
      var last := groups[|groups| - 1];
      && n < |layers| && last != [] && last[0] == n && n + |last| <= |layers| && last == Span(n, n + |last|)
      && Tiles(layers, groups[..|groups| - 1], n + |last|)
  }

  /** Every layer from n on is in the group that the map names, and in no other. */
  ghost predicate Agrees(layers: seq<Layer>, groups: seq<seq<nat>>, groupOf: map<nat, nat>, n: nat) {
    && (forall l: nat :: l in groupOf <==> n <= l < |layers|)
    && (forall l: nat | l in groupOf :: groupOf[l] < |groups| && l in groups[groupOf[l]])
    && (forall g: nat, l: nat | g < |groups| && l in groups[g] :: l in groupOf && groupOf[l] == g)
  }

  ghost predicate AllWithinLimits(layers: seq<Layer>, groups: seq<seq<nat>>, maxTensors: nat, maxBytes: nat) {
    forall g | 0 <= g < |groups| ::
      LayersOf(layers, groups[g]) && WithinLimits(layers, groups[g], maxTensors, maxBytes)
  }

  ghost predicate Grouped(layers: seq<Layer>, groups: seq<seq<nat>>, groupOf: map<nat, nat>, n: nat,
                          maxTensors: nat, maxBytes: nat)
  {
    && Tiles(layers, groups, n) && Agrees(layers, groups, groupOf, n)
    && AllWithinLimits(layers, groups, maxTensors, maxBytes)
  }

  /** Layers from n on have been visited: the lower ones wait in a descending span within the limits, the others are
      grouped. */
  ghost predicate Visited(layers: seq<Layer>, groups: seq<seq<nat>>, groupOf: map<nat, nat>, current: seq<nat>,
                          bytes: nat, n: nat, maxTensors: nat, maxBytes: nat)
  {
    && n + |current| <= |layers| && current == Down(n, n + |current|)
    && bytes == BytesOf(layers, current) && WithinLimits(layers, current, maxTensors, maxBytes)
    && Grouped(layers, groups, groupOf, n + |current|, maxTensors, maxBytes)
  }

  /** The group has no room for the layer below it. */
  ghost predicate Closed(layers: seq<Layer>, group: seq<nat>, maxTensors: nat, maxBytes: nat) {
    && LayersOf(layers, group) && group != [] && group[0] > 0
    && (|group| >= maxTensors || BytesOf(layers, group) + EstimatedBytes(layers[group[0] - 1]) > maxBytes)
  }

  /** Every group but the last one, which holds the lowest layers, is as large as the limits allow. */
  ghost predicate Maximal(layers: seq<Layer>, groups: seq<seq<nat>>, maxTensors: nat, maxBytes: nat) {
    forall g | 0 <= g < |groups| - 1 :: Closed(layers, groups[g], maxTensors, maxBytes)
  }

  /** A group was only made because the next layer, which waits now, did not fit. */
  ghost predicate Saturated(layers: seq<Layer>, groups: seq<seq<nat>>, current: seq<nat>, maxTensors: nat, maxBytes: nat) {
    && (current == [] ==> groups == [])
    && (forall g | 0 <= g < |groups| :: Closed(layers, groups[g], maxTensors, maxBytes))
  }

  lemma FlushCloses(layers: seq<Layer>, groups: seq<seq<nat>>, n: nat, k: nat, maxTensors: nat, maxBytes: nat)
    requires n > 0 && k > 0 && n + k <= |layers|
    requires forall g | 0 <= g < |groups| :: Closed(layers, groups[g], maxTensors, maxBytes)
    requires k >= maxTensors || BytesOf(layers, Down(n, n + k)) + EstimatedBytes(layers[n-1]) > maxBytes
    ensures Saturated(layers, groups + [Span(n, n + k)], [n - 1], maxTensors, maxBytes)
  {
    BytesReversed(layers, n, n + k);
  }

  /** The collected layers, sorted, become one more group whose id is its index. */
  method Flush(layers: seq<Layer>, groups: seq<seq<nat>>, groupOf: map<nat, nat>, current: seq<nat>,
               ghost bytes: nat, ghost n: nat, ghost maxTensors: nat, ghost maxBytes: nat)
    returns (more: seq<seq<nat>>, moreOf: map<nat, nat>)
    requires Visited(layers, groups, groupOf, current, bytes, n, maxTensors, maxBytes)
    ensures Visited(layers, more, moreOf, [], 0, n, maxTensors, maxBytes)
    ensures more == if current == [] then groups else groups + [Span(n, n + |current|)]
  {
    if current == [] {
      Flushed(layers, groups, groupOf, n, maxTensors, maxBytes);
      return groups, groupOf;
    }
    var groupId := |groups|;
    var ordered := Backwards(current, n);
    more := groups + [ordered];
    moreOf := Mark(groupOf, ordered, groupId, n);
    FlushGroups(layers, groups, groupOf, more, moreOf, n, |current|, maxTensors, maxBytes);
    Flushed(layers, more, moreOf, n, maxTensors, maxBytes);
  }

  lemma Flushed(layers: seq<Layer>, groups: seq<seq<nat>>, groupOf: map<nat, nat>, n: nat, maxTensors: nat, maxBytes: nat)
    requires n <= |layers| && Grouped(layers, groups, groupOf, n, maxTensors, maxBytes)
    ensures Visited(layers, groups, groupOf, [], 0, n, maxTensors, maxBytes)
  {
  }

  lemma FlushGroups(layers: seq<Layer>, groups: seq<seq<nat>>, groupOf: map<nat, nat>,
                    more: seq<seq<nat>>, moreOf: map<nat, nat>, n: nat, k: nat, maxTensors: nat, maxBytes: nat)
    requires k > 0 && n + k <= |layers| && Grouped(layers, groups, groupOf, n + k, maxTensors, maxBytes)
    requires WithinLimits(layers, Down(n, n + k), maxTensors, maxBytes)
    requires more == groups + [Span(n, n + k)]
    requires forall l: nat :: l in moreOf <==> l in groupOf || n <= l < n + k
    requires forall l: nat | l in moreOf :: moreOf[l] == if n <= l < n + k then |groups| else groupOf[l]
    ensures Grouped(layers, more, moreOf, n, maxTensors, maxBytes)
  {
    FlushTiles(layers, groups, n, k);
    FlushLimits(layers, groups, n, k, maxTensors, maxBytes);
    FlushAgrees(layers, groups, groupOf, more, moreOf, n, k);
  }

  method Backwards(current: seq<nat>, ghost n: nat) returns (ordered: seq<nat>)
    requires forall i | 0 <= i < |current| :: current[i] == n + |current| - 1 - i
    ensures ordered == Span(n, n + |current|)
  {
    ordered := seq(|current|, i requires 0 <= i < |current| => current[|current| - 1 - i]);
  }

  method Mark(groupOf: map<nat, nat>, ordered: seq<nat>, groupId: nat, ghost n: nat) returns (moreOf: map<nat, nat>)
    requires ordered == Span(n, n + |ordered|)
    ensures forall l: nat :: l in moreOf <==> l in groupOf || n <= l < n + |ordered|
    ensures forall l: nat | l in moreOf :: moreOf[l] == if n <= l < n + |ordered| then groupId else groupOf[l]
  {
    moreOf := groupOf;
    for i := 0 to |ordered|
      invariant forall l: nat :: l in moreOf <==> l in groupOf || n <= l < n + i
      invariant forall l: nat | l in moreOf :: moreOf[l] == if n <= l < n + i then groupId else groupOf[l]
    {
      moreOf := moreOf[ordered[i] := groupId];
    }
  }

  lemma FlushTiles(layers: seq<Layer>, groups: seq<seq<nat>>, n: nat, k: nat)
    requires k > 0 && n + k <= |layers| && Tiles(layers, groups, n + k)
    ensures Tiles(layers, groups + [Span(n, n + k)], n)
  {
    assert (groups + [Span(n, n + k)])[..|groups|] == groups;
  }

  lemma FlushLimits(layers: seq<Layer>, groups: seq<seq<nat>>, n: nat, k: nat, maxTensors: nat, maxBytes: nat)
    requires n + k <= |layers| && AllWithinLimits(layers, groups, maxTensors, maxBytes)
    requires WithinLimits(layers, Down(n, n + k), maxTensors, maxBytes)
    ensures AllWithinLimits(layers, groups + [Span(n, n + k)], maxTensors, maxBytes)
  {
    BytesReversed(layers, n, n + k);
  }

  lemma FlushAgrees(layers: seq<Layer>, groups: seq<seq<nat>>, groupOf: map<nat, nat>,
                    more: seq<seq<nat>>, moreOf: map<nat, nat>, n: nat, k: nat)
    requires n + k <= |layers| && Agrees(layers, groups, groupOf, n + k)
    requires more == groups + [Span(n, n + k)]
    requires forall l: nat :: l in moreOf <==> l in groupOf || n <= l < n + k
    requires forall l: nat | l in moreOf :: moreOf[l] == if n <= l < n + k then |groups| else groupOf[l]
    ensures Agrees(layers, more, moreOf, n)
  {
    forall l: nat | l in moreOf ensures moreOf[l] < |more| && l in more[moreOf[l]] {
      InSpan(n, n + k, l);
    }
    forall g: nat, l: nat | g < |more| && l in more[g] ensures l in moreOf && moreOf[l] == g {
      InSpan(n, n + k, l);
      if g < |groups| {
        assert l in groups[g];
        assert l in groupOf && groupOf[l] == g;
      }
    }
  }

  /** Each layer lands in exactly one group, a group's id is its index, the map agrees, and every group keeps to the
      limits unless it is a single layer. No group has room for the layer below it. */
  method BuildFusedGroups(layers: seq<Layer>, maxTensors: nat, maxBytes: nat)
    returns (groups: seq<seq<nat>>, groupOf: map<nat, nat>)
    ensures Grouped(layers, groups, groupOf, 0, maxTensors, maxBytes)
    ensures Maximal(layers, groups, maxTensors, maxBytes)
  {
    groups, groupOf := [], map[];
    var current: seq<nat> := [];
    var bytes: nat := 0;
    var n: nat := |layers|;
    NothingVisited(layers, maxTensors, maxBytes);
    while n > 0
      invariant Visited(layers, groups, groupOf, current, bytes, n, maxTensors, maxBytes)
      invariant Saturated(layers, groups, current, maxTensors, maxBytes)
    {
      groups, groupOf, current, bytes := Visit(layers, groups, groupOf, current, bytes, n, maxTensors, maxBytes);
      n := n - 1;
    }
    groups, groupOf := Flush(layers, groups, groupOf, current, bytes, 0, maxTensors, maxBytes);
    AllVisited(layers, groups, groupOf, maxTensors, maxBytes);
  }

  lemma NothingVisited(layers: seq<Layer>, maxTensors: nat, maxBytes: nat)
    ensures Visited(layers, [], map[], [], 0, |layers|, maxTensors, maxBytes)
  {
    assert Down(|layers|, |layers|) == [];
  }

  lemma AllVisited(layers: seq<Layer>, groups: seq<seq<nat>>, groupOf: map<nat, nat>, maxTensors: nat, maxBytes: nat)
    requires Visited(layers, groups, groupOf, [], 0, 0, maxTensors, maxBytes)
    ensures Grouped(layers, groups, groupOf, 0, maxTensors, maxBytes)
  {
  }

  /** One layer: what waits is flushed unless the layer still fits, then the layer waits. */
  method Visit(layers: seq<Layer>, groups: seq<seq<nat>>, groupOf: map<nat, nat>, current: seq<nat>, bytes: nat,
               n: nat, maxTensors: nat, maxBytes: nat)
    returns (more: seq<seq<nat>>, moreOf: map<nat, nat>, left: seq<nat>, leftBytes: nat)
    requires n > 0 && Visited(layers, groups, groupOf, current, bytes, n, maxTensors, maxBytes)
    requires Saturated(layers, groups, current, maxTensors, maxBytes)
    ensures Visited(layers, more, moreOf, left, leftBytes, n - 1, maxTensors, maxBytes)
    ensures Saturated(layers, more, left, maxTensors, maxBytes)
  {
    var estimated := EstimatedBytes(layers[n-1]);
    if current != [] && (|current| >= maxTensors || bytes + estimated > maxBytes) {
      VisitCloses(layers, groups, groupOf, current, bytes, n, maxTensors, maxBytes);
      more, moreOf := Flush(layers, groups, groupOf, current, bytes, n, maxTensors, maxBytes);
      left, leftBytes := FirstOfNext(layers, more, moreOf, n, maxTensors, maxBytes);
    } else {
      OneMore(layers, groups, groupOf, current, bytes, n, maxTensors, maxBytes);
      more, moreOf, left, leftBytes := groups, groupOf, current + [n - 1], bytes + estimated;
    }
  }

  method FirstOfNext(layers: seq<Layer>, groups: seq<seq<nat>>, groupOf: map<nat, nat>, n: nat,
                     ghost maxTensors: nat, ghost maxBytes: nat)
    returns (left: seq<nat>, leftBytes: nat)
    requires n > 0 && Visited(layers, groups, groupOf, [], 0, n, maxTensors, maxBytes)
    ensures left == [n - 1] && Visited(layers, groups, groupOf, left, leftBytes, n - 1, maxTensors, maxBytes)
  {
    OneMore(layers, groups, groupOf, [], 0, n, maxTensors, maxBytes);
    left, leftBytes := [n - 1], EstimatedBytes(layers[n-1]);
    assert [] + [n - 1] == left;
  }

  lemma VisitCloses(layers: seq<Layer>, groups: seq<seq<nat>>, groupOf: map<nat, nat>, current: seq<nat>, bytes: nat,
                    n: nat, maxTensors: nat, maxBytes: nat)
    requires n > 0 && Visited(layers, groups, groupOf, current, bytes, n, maxTensors, maxBytes)
    requires Saturated(layers, groups, current, maxTensors, maxBytes) && current != []
    requires |current| >= maxTensors || bytes + EstimatedBytes(layers[n-1]) > maxBytes
    ensures Saturated(layers, groups + [Span(n, n + |current|)], [n - 1], maxTensors, maxBytes)
  {
    FlushCloses(layers, groups, n, |current|, maxTensors, maxBytes);
  }

  lemma OneMore(layers: seq<Layer>, groups: seq<seq<nat>>, groupOf: map<nat, nat>, current: seq<nat>,
                bytes: nat, n: nat, maxTensors: nat, maxBytes: nat)
    requires n > 0 && Visited(layers, groups, groupOf, current, bytes, n, maxTensors, maxBytes)
    requires current == [] || (|current| < maxTensors && bytes + EstimatedBytes(layers[n-1]) <= maxBytes)
    ensures Visited(layers, groups, groupOf, current + [n - 1], bytes + EstimatedBytes(layers[n-1]), n - 1, maxTensors, maxBytes)
  {
    var longer := current + [n - 1];
    assert longer[..|current|] == current;
    assert longer == Down(n - 1, n - 1 + |longer|);
  }

  /** The result is a plan that the rest of the runtime can rely on. */
  lemma GroupedPlan(layers: seq<Layer>, groups: seq<seq<nat>>, groupOf: map<nat, nat>, maxTensors: nat, maxBytes: nat,
                    maxGroups: nat, maxBatchBytes: nat, byteSize: Chunk -> nat)
    requires Grouped(layers, groups, groupOf, 0, maxTensors, maxBytes) && maxGroups > 0
    ensures PlanOk(Plan(layers, groups, seq(|layers|, l requires 0 <= l < |layers| => groupOf[l]),
                        maxGroups, maxBatchBytes, byteSize))
  {
    forall g: nat | g < |groups| ensures forall i, j | 0 <= i < j < |groups[g]| :: groups[g][i] != groups[g][j] {
      TilesSpan(layers, groups, 0, g);
    }
  }

  lemma {:induction false} TilesSpan(layers: seq<Layer>, groups: seq<seq<nat>>, n: nat, g: nat)
    requires Tiles(layers, groups, n) && g < |groups|
    ensures groups[g] != [] && groups[g] == Span(groups[g][0], groups[g][0] + |groups[g]|)
    decreases |groups|
  {
    if g < |groups| - 1 {
      TilesSpan(layers, groups[..|groups| - 1], n + |groups[|groups| - 1]|, g);
    }
  }
}
