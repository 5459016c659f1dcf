/** Top-k compression with error feedback, on the Worker. Torch's `topk` promises no order and no rule for
    ties, and the sample is random, so both are parameters: results hold for every topk and every sample. */
module Compression {
  import opened Wrappers
  import opened Gradients

  function Abs(x: real): real {
    if x < 0.0 then -x else x
  }

  function Magnitudes(values: Vec): (m: Vec)
    ensures |m| == |values|
  {
    seq(|values|, i requires 0 <= i < |values| => Abs(values[i]))
  }

  function Ceil(x: real): int {
    -((-x).Floor)
  }

  function Min(a: int, b: int): int {
    if a < b then a else b
  }

  function Max(a: int, b: int): int {
    if a < b then b else a
  }

  // ---------- selection ----------

  /** What torch.topk(magnitudes, k).indices may return: k positions none of which is beaten from outside. */
  predicate IsTopK(magnitudes: Vec, k: nat, indices: seq<int>) {
    |indices| == k && Selects(magnitudes, indices)
  }

  predicate Selects(magnitudes: Vec, indices: seq<int>) {
    Distinct(indices) && InBounds(indices, |magnitudes|) && Dominates(magnitudes, indices)
  }

  predicate Dominates(magnitudes: Vec, indices: seq<int>)
    requires InBounds(indices, |magnitudes|)
  {
    forall p, j | 0 <= p < |indices| && 0 <= j < |magnitudes| && j !in indices ::
      magnitudes[j] <= magnitudes[indices[p]]
  }

  type TopK = (Vec, nat) -> seq<int>

  ghost predicate GoodTopK(topk: TopK) {
    forall m: Vec, k: nat | k <= |m| :: IsTopK(m, k, topk(m, k))
  }

  datatype Config = Config(
    topK: bool,
    sampled: bool,
    topKPercent: real,
    sampleRatePercent: real,
    maxPayloadFactor: real,
    warmupSteps: nat)

  function TopKCount(numel: int, percent: real): (k: int)
    ensures 0 <= k
    ensures numel > 0 ==> 1 <= k <= numel
    ensures numel <= 0 ==> k == 0
  {
    if numel <= 0 then 0
    else Min(numel, Max(1, Ceil(numel as real * percent / 100.0)))
  }

  /** The least count that reaches this percentage of numel, but at least one and at most all. */
  predicate LeastShare(numel: nat, percent: real, k: int) {
    && 1 <= k <= numel
    && (k == numel || k as real * 100.0 >= numel as real * percent)
    && (k == 1 || (k - 1) as real * 100.0 < numel as real * percent)
  }

  lemma CeilIs(x: real)
    ensures x <= Ceil(x) as real < x + 1.0
  {
  }

  lemma TopKCountIs(numel: nat, percent: real)
    requires numel > 0
    ensures LeastShare(numel, percent, TopKCount(numel, percent))
  {
    CeilIs(numel as real * percent / 100.0);
  }

  /** No other count is. */
  lemma LeastShareUnique(numel: nat, percent: real, k: int, l: int)
    requires LeastShare(numel, percent, k) && LeastShare(numel, percent, l)
    ensures k == l
  {
    if k < l {
      LeastShareNotLess(numel, percent, k, l);
    } else if l < k {
      LeastShareNotLess(numel, percent, l, k);
    }
  }

  lemma LeastShareNotLess(numel: nat, percent: real, k: int, l: int)
    requires LeastShare(numel, percent, k) && LeastShare(numel, percent, l)
    ensures !(k < l)
  {
  }

  /** How many of numel values may be sent when k are wanted: exactly k, or, with sampling, at least half of them and
      at most the configured multiple, but never none and never more than there are. */
  predicate AllowedCount(cfg: Config, numel: nat, k: int, n: int) {
    && 1 <= n <= numel
    && if cfg.sampled then 2 * n + 1 >= k && (n <= k || (n as real) < k as real * cfg.maxPayloadFactor + 1.0) else n == k
  }

  /** The positions whose magnitude reaches the threshold, in increasing order, from position n on. */
  function Reaching(magnitudes: Vec, threshold: real, n: nat): (indices: seq<int>)
    requires n <= |magnitudes|
    ensures forall p | 0 <= p < |indices| :: n <= indices[p] < |magnitudes| && magnitudes[indices[p]] >= threshold
    ensures forall j | n <= j < |magnitudes| && magnitudes[j] >= threshold :: j in indices
    ensures Increasing(indices)
    decreases |magnitudes| - n
  {
    if n == |magnitudes| then []
    else if magnitudes[n] >= threshold then [n] + Reaching(magnitudes, threshold, n + 1)
    else Reaching(magnitudes, threshold, n + 1)
  }

  function Take<T>(values: seq<T>, indices: seq<int>): (v: seq<T>)
    requires InBounds(indices, |values|)
    ensures |v| == |indices|
    ensures forall p | 0 <= p < |indices| :: v[p] == values[indices[p]]
  {
    seq(|indices|, p requires 0 <= p < |indices| => values[indices[p]])
  }

  function Minimum(values: Vec): (m: real)
    requires values != []
    ensures m in values && forall v | v in values :: m <= v
  {
    var last := |values| - 1;
    if last == 0 then values[0]
    else
      assert values == values[..last] + [values[last]];
      var m := Minimum(values[..last]);
      if m < values[last] then m else values[last]
  }

  datatype Selection = Selection(indices: seq<int>, targetCount: int, usedFallback: bool)

  function SelectExact(values: Vec, cfg: Config, topk: TopK): Selection {
    var k := TopKCount(|values|, cfg.topKPercent);
    Selection(if values == [] then [] else topk(Magnitudes(values), k), k, false)
  }

  /** The threshold is the least of the top of the sampled magnitudes. */
  function Threshold(values: Vec, cfg: Config, topk: TopK, sample: seq<int>): real
    requires GoodTopK(topk) && sample != [] && InBounds(sample, |values|)
  {
    var sampled := Take(Magnitudes(values), sample);
    var top := topk(sampled, TopKCount(|sample|, cfg.topKPercent));
    Minimum(Take(sampled, top))
  }

  /** The choice once the threshold is known: too few fall back to the exact selection, too many are
      thinned to the target, otherwise all that reach the threshold are taken. */
  function Choose(magnitudes: Vec, topk: TopK, threshold: real, target: nat, minCount: int, maxCount: int): Selection
    requires GoodTopK(topk) && target <= maxCount
  {
    var reaching := Reaching(magnitudes, threshold, 0);
    if |reaching| == 0 || |reaching| < minCount then Selection(topk(magnitudes, target), target, true)
    else if |reaching| > maxCount then
      var picked := topk(Take(magnitudes, reaching), target);
      assert IsTopK(Take(magnitudes, reaching), target, picked);
      Selection(Take(reaching, picked), target, true)
    else Selection(reaching, target, false)
  }

  function MaxCount(numel: nat, target: nat, factor: real): int {
    Max(target, Min(numel, Ceil(target as real * factor)))
  }

  function MinCount(target: nat): int {
    Max(1, target / 2)
  }

  function SelectSampled(values: Vec, cfg: Config, topk: TopK, sample: seq<int>): Selection
    requires GoodTopK(topk) && InBounds(sample, |values|)
    requires |sample| == TopKCount(|values|, cfg.sampleRatePercent)
  {
    var numel := |values|;
    if numel == 0 then Selection([], 0, false)
    else
      var target := TopKCount(numel, cfg.topKPercent);
      if |sample| >= numel then Selection(topk(Magnitudes(values), target), target, true)
      else
        Choose(Magnitudes(values), topk, Threshold(values, cfg, topk, sample), target,
               MinCount(target), MaxCount(numel, target, cfg.maxPayloadFactor))
  }

  function Select(values: Vec, cfg: Config, topk: TopK, sample: seq<int>): Selection
    requires GoodTopK(topk) && InBounds(sample, |values|)
    requires cfg.sampled ==> |sample| == TopKCount(|values|, cfg.sampleRatePercent)
  {
    if cfg.sampled then SelectSampled(values, cfg, topk, sample) else SelectExact(values, cfg, topk)
  }

  lemma IncreasingDistinct(indices: seq<int>)
    requires Increasing(indices)
    ensures Distinct(indices)
  {
  }

  /** Restricting a topk to the positions that reach a threshold keeps its promise on the whole vector. */
  lemma TopKOfReaching(magnitudes: Vec, threshold: real, picked: seq<int>)
    requires var reaching := Reaching(magnitudes, threshold, 0);
             IsTopK(Take(magnitudes, reaching), |picked|, picked)
    ensures var reaching := Reaching(magnitudes, threshold, 0);
            Selects(magnitudes, Take(reaching, picked))
  {
    var reaching := Reaching(magnitudes, threshold, 0);
    var chosen := Take(reaching, picked);
    forall p, j | 0 <= p < |chosen| && 0 <= j < |magnitudes| && j !in chosen
      ensures magnitudes[j] <= magnitudes[chosen[p]]
    {
      if magnitudes[j] >= threshold {
        var q :| 0 <= q < |reaching| && reaching[q] == j;
        NotPicked(reaching, picked, q);
        assert Take(magnitudes, reaching)[q] <= Take(magnitudes, reaching)[picked[p]];
      }
    }
  }

  lemma NotPicked(reaching: seq<int>, picked: seq<int>, q: nat)
    requires InBounds(picked, |reaching|) && q < |reaching| && reaching[q] !in Take(reaching, picked)
    ensures q !in picked
  {
    forall r | 0 <= r < |picked| ensures picked[r] != q {
      assert Take(reaching, picked)[r] in Take(reaching, picked);
    }
  }

  lemma ReachingSelects(magnitudes: Vec, threshold: real)
    ensures Selects(magnitudes, Reaching(magnitudes, threshold, 0))
  {
    IncreasingDistinct(Reaching(magnitudes, threshold, 0));
  }

  lemma ExactSelects(values: Vec, topk: TopK, target: nat)
    requires GoodTopK(topk) && target <= |values|
    ensures Selects(Magnitudes(values), topk(Magnitudes(values), target))
    ensures |topk(Magnitudes(values), target)| == target
  {
    assert IsTopK(Magnitudes(values), target, topk(Magnitudes(values), target));
  }

  lemma TooManySelects(magnitudes: Vec, threshold: real, topk: TopK, target: nat)
    requires GoodTopK(topk) && target <= |Reaching(magnitudes, threshold, 0)|
    ensures var reaching := Reaching(magnitudes, threshold, 0);
            var picked := topk(Take(magnitudes, reaching), target);
            && InBounds(picked, |reaching|) && |picked| == target
            && Selects(magnitudes, Take(reaching, picked))
  {
    var reaching := Reaching(magnitudes, threshold, 0);
    var picked := topk(Take(magnitudes, reaching), target);
    assert IsTopK(Take(magnitudes, reaching), target, picked);
    TopKOfReaching(magnitudes, threshold, picked);
  }

  lemma ChooseSound(magnitudes: Vec, topk: TopK, threshold: real, target: nat, minCount: int, maxCount: int)
    requires GoodTopK(topk) && 1 <= minCount <= target <= maxCount && target <= |magnitudes|
    ensures var s := Choose(magnitudes, topk, threshold, target, minCount, maxCount);
            Selects(magnitudes, s.indices) && minCount <= |s.indices| <= maxCount
  {
    assert IsTopK(magnitudes, target, topk(magnitudes, target));
    ReachingSelects(magnitudes, threshold);
    if |Reaching(magnitudes, threshold, 0)| >= target {
      TooManySelects(magnitudes, threshold, topk, target);
    }
  }

  /** Every return path, for every sample and every topk: the selected positions are distinct and in
      bounds, none is beaten by an unselected one, and their number stays within the configured window. */
  lemma SampledSelectionSound(values: Vec, cfg: Config, topk: TopK, sample: seq<int>)
    requires values != [] && GoodTopK(topk) && InBounds(sample, |values|)
    requires |sample| == TopKCount(|values|, cfg.sampleRatePercent)
    ensures var target := TopKCount(|values|, cfg.topKPercent);
            var s := SelectSampled(values, cfg, topk, sample);
            && Selects(Magnitudes(values), s.indices)
            && MinCount(target) <= |s.indices| <= MaxCount(|values|, target, cfg.maxPayloadFactor)
  {
    var target := TopKCount(|values|, cfg.topKPercent);
    if |sample| >= |values| {
      ExactSelects(values, topk, target);
    } else {
      ChooseSound(Magnitudes(values), topk, Threshold(values, cfg, topk, sample), target,
                  MinCount(target), MaxCount(|values|, target, cfg.maxPayloadFactor));
    }
  }

  /** The selected positions are distinct and in bounds, none is beaten by an unselected one, and their number is
      allowed for the configured percentage. */
  lemma SelectionSound(values: Vec, cfg: Config, topk: TopK, sample: seq<int>)
    requires GoodTopK(topk) && InBounds(sample, |values|)
    requires cfg.sampled ==> |sample| == TopKCount(|values|, cfg.sampleRatePercent)
    ensures Selects(Magnitudes(values), Select(values, cfg, topk, sample).indices)
    ensures values != [] ==> SentCountSound(cfg, |values|, |Select(values, cfg, topk, sample).indices|)
  {
    if values != [] {
      var target := TopKCount(|values|, cfg.topKPercent);
      TopKCountIs(|values|, cfg.topKPercent);
      if cfg.sampled {
        SampledSelectionSound(values, cfg, topk, sample);
        InWindow(cfg, |values|, target, |Select(values, cfg, topk, sample).indices|);
      } else {
        ExactSelects(values, topk, TopKCount(|values|, cfg.topKPercent));
      }
    }
  }

  ghost predicate SentCountSound(cfg: Config, numel: nat, n: int) {
    exists k :: LeastShare(numel, cfg.topKPercent, k) && AllowedCount(cfg, numel, k, n)
  }

  lemma InWindow(cfg: Config, numel: nat, target: int, n: int)
    requires cfg.sampled && 1 <= target <= numel
    requires MinCount(target) <= n <= MaxCount(numel, target, cfg.maxPayloadFactor)
    ensures AllowedCount(cfg, numel, target, n)
  {
    CeilIs(target as real * cfg.maxPayloadFactor);
  }

  // ---------- what sampling selects ----------

  /** The positions whose magnitude reaches the threshold. */
  ghost function Reachers(magnitudes: Vec, threshold: real): set<int> {
    set i: int | 0 <= i < |magnitudes| && magnitudes[i] >= threshold
  }

  lemma ReachingAre(magnitudes: Vec, threshold: real)
    ensures var reaching := Reaching(magnitudes, threshold, 0);
            && |reaching| == |Reachers(magnitudes, threshold)|
            && forall i :: i in reaching <==> i in Reachers(magnitudes, threshold)
  {
    var reaching := Reaching(magnitudes, threshold, 0);
    IncreasingDistinct(reaching);
    DistinctSize(reaching);
    assert (set i | i in reaching) == Reachers(magnitudes, threshold);
  }

  lemma Windows(cfg: Config, numel: nat, target: int, n: int)
    requires cfg.sampled && 1 <= target <= numel && n <= numel
    ensures AllowedCount(cfg, numel, target, n)
       <==> MinCount(target) <= n <= MaxCount(numel, target, cfg.maxPayloadFactor)
  {
    CeilIs(target as real * cfg.maxPayloadFactor);
  }

  /** All positions that reach the threshold are selected if that is an allowed number, and otherwise as many of the
      largest as are wanted. */
  lemma SamplingSelects(values: Vec, cfg: Config, topk: TopK, sample: seq<int>, k: int)
    requires values != [] && GoodTopK(topk) && InBounds(sample, |values|) && cfg.sampled
    requires |sample| == TopKCount(|values|, cfg.sampleRatePercent) && LeastShare(|values|, cfg.topKPercent, k)
    ensures var s := Select(values, cfg, topk, sample);
            var reachers := Reachers(Magnitudes(values), Threshold(values, cfg, topk, sample));
            && s.targetCount == k
            && if |sample| < |values| && AllowedCount(cfg, |values|, k, |reachers|) then
                 !s.usedFallback && forall i :: i in s.indices <==> i in reachers
               else s.usedFallback && |s.indices| == k
  {
    var magnitudes, t := Magnitudes(values), Threshold(values, cfg, topk, sample);
    TopKCountIs(|values|, cfg.topKPercent);
    LeastShareUnique(|values|, cfg.topKPercent, k, TopKCount(|values|, cfg.topKPercent));
    ReachingAre(magnitudes, t);
    ReachersBound(magnitudes, t);
    Windows(cfg, |values|, k, |Reachers(magnitudes, t)|);
    ExactSelects(values, topk, k);
    if |Reaching(magnitudes, t, 0)| >= k {
      TooManySelects(magnitudes, t, topk, k);
    }
  }

  lemma ReachersBound(magnitudes: Vec, threshold: real)
    ensures |Reachers(magnitudes, threshold)| <= |magnitudes|
  {
    PositionsAre(|magnitudes|);
    SubsetSize(Reachers(magnitudes, threshold), Positions(|magnitudes|));
  }

  ghost function Positions(n: nat): set<int> {
    if n == 0 then {} else Positions(n - 1) + {n - 1}
  }

  lemma {:induction false} PositionsAre(n: nat)
    ensures |Positions(n)| == n && forall i :: i in Positions(n) <==> 0 <= i < n
  {
    if n > 0 {
      PositionsAre(n - 1);
    }
  }

  lemma SubsetSize(small: set<int>, big: set<int>)
    requires small <= big
    ensures |small| <= |big|
  {
    assert big == small + (big - small);
  }

  /** Without sampling, as many of the largest as are wanted are selected. */
  lemma ExactSelection(values: Vec, cfg: Config, topk: TopK, sample: seq<int>, k: int)
    requires values != [] && GoodTopK(topk) && InBounds(sample, |values|) && !cfg.sampled
    requires LeastShare(|values|, cfg.topKPercent, k)
    ensures var s := Select(values, cfg, topk, sample);
            |s.indices| == k && s.targetCount == k && !s.usedFallback && Selects(Magnitudes(values), s.indices)
  {
    TopKCountIs(|values|, cfg.topKPercent);
    LeastShareUnique(|values|, cfg.topKPercent, k, TopKCount(|values|, cfg.topKPercent));
    ExactSelects(values, topk, k);
  }

  /** The threshold is the k-th largest of the sampled magnitudes, for the configured percentage of the sample. */
  lemma ThresholdIs(values: Vec, cfg: Config, topk: TopK, sample: seq<int>, k: int)
    requires GoodTopK(topk) && sample != [] && InBounds(sample, |values|) && LeastShare(|sample|, cfg.topKPercent, k)
    ensures var sampled, t := Take(Magnitudes(values), sample), Threshold(values, cfg, topk, sample);
            && t in sampled && |Reachers(sampled, t)| >= k
            && |set p: int | 0 <= p < |sampled| && sampled[p] > t| < k
  {
    TopKCountIs(|sample|, cfg.topKPercent);
    LeastShareUnique(|sample|, cfg.topKPercent, k, TopKCount(|sample|, cfg.topKPercent));
    var sampled := Take(Magnitudes(values), sample);
    var top := topk(sampled, k);
    assert IsTopK(sampled, k, top);
    KthLargest(sampled, top, Minimum(Take(sampled, top)));
  }

  lemma NotAbove(sampled: Vec, top: seq<int>, q: nat, p: int)
    requires Selects(sampled, top) && q < |top| && 0 <= p < |sampled| && p !in top
    ensures sampled[p] <= sampled[top[q]]
  {
  }

  lemma KthLargest(sampled: Vec, top: seq<int>, t: real)
    requires Selects(sampled, top) && top != [] && t in Take(sampled, top) && forall v | v in Take(sampled, top) :: t <= v
    ensures t in sampled && |Reachers(sampled, t)| >= |top|
    ensures |set p: int | 0 <= p < |sampled| && sampled[p] > t| < |top|
  {
    var tops := Take(sampled, top);
    var q: nat :| q < |tops| && tops[q] == t;
    DistinctSize(top);
    forall p | p in top ensures p in Reachers(sampled, t) {
      var r :| 0 <= r < |top| && top[r] == p;
      assert tops[r] in tops;
    }
    var positions := set p | p in top;
    SubsetSize(positions, Reachers(sampled, t));
    var above := set p: int | 0 <= p < |sampled| && sampled[p] > t;
    forall p | p in above ensures p in positions - {top[q]} {
      if p !in top {
        NotAbove(sampled, top, q, p);
      }
    }
    SubsetSize(above, positions - {top[q]});
  }

  /** The sample always reaches its own threshold, so the test for an empty selection never fires. */
  lemma ReachingNotEmpty(values: Vec, cfg: Config, topk: TopK, sample: seq<int>)
    requires GoodTopK(topk) && sample != [] && InBounds(sample, |values|)
    ensures Reaching(Magnitudes(values), Threshold(values, cfg, topk, sample), 0) != []
  {
    var sampled := Take(Magnitudes(values), sample);
    var k := TopKCount(|sample|, cfg.topKPercent);
    assert IsTopK(sampled, k, topk(sampled, k));
    var tops := Take(sampled, topk(sampled, k));
    var p :| 0 <= p < |tops| && tops[p] == Minimum(tops);
    var j := sample[topk(sampled, k)[p]];
    assert Magnitudes(values)[j] == Threshold(values, cfg, topk, sample);
    assert j in Reaching(Magnitudes(values), Threshold(values, cfg, topk, sample), 0);
  }

  // ---------- residuals ----------

  /** What is not sent stays behind. */
  function Residual(effective: Vec, indices: seq<int>): (r: Vec)
    ensures |r| == |effective|
    ensures forall i | 0 <= i < |r| :: r[i] == if i in indices then 0.0 else effective[i]
  {
    seq(|effective|, i requires 0 <= i < |effective| => if i in indices then 0.0 else effective[i])
  }

  function Plus(a: Vec, b: Vec): (v: Vec)
    requires |a| == |b|
    ensures |v| == |a|
  {
    seq(|a|, i requires 0 <= i < |a| => a[i] + b[i])
  }

  /** Sent plus kept is everything, whatever was selected. */
  lemma NothingLost(effective: Vec, indices: seq<int>)
    requires Distinct(indices) && InBounds(indices, |effective|)
    ensures Plus(Scatter(|effective|, indices, Take(effective, indices)), Residual(effective, indices)) == effective
  {
    var sent := Take(effective, indices);
    forall i | 0 <= i < |effective|
      ensures At(indices, sent, |indices|, i) + Residual(effective, indices)[i] == effective[i]
    {
      assert indices[..|indices|] == indices;
      if i in indices {
        var p :| 0 <= p < |indices| && indices[p] == i;
        AtSome(indices, sent, |indices|, p);
      } else {
        AtNone(indices, sent, |indices|, i);
      }
    }
  }

  // ---------- contraction ----------

  function Squares(v: Vec, n: nat): real
    requires n <= |v|
  {
    if n == 0 then 0.0 else Squares(v, n - 1) + v[n-1] * v[n-1]
  }

  /** How many positions below n are selected. */
  function Selected(indices: seq<int>, n: nat): nat {
    if n == 0 then 0 else Selected(indices, n - 1) + (if n - 1 in indices then 1 else 0)
  }

  lemma {:induction false} SelectedIsSet(indices: seq<int>, n: nat)
    ensures Selected(indices, n) == |set i: int | 0 <= i < n && i in indices|
  {
    var below := set i: int | 0 <= i < n && i in indices;
    if n > 0 {
      SelectedIsSet(indices, n - 1);
      var before := set i: int | 0 <= i < n - 1 && i in indices;
      assert below == before + (if n - 1 in indices then {n - 1} else {});
    }
  }

  lemma {:induction false} DistinctSize(indices: seq<int>)
    requires Distinct(indices)
    ensures |set i | i in indices| == |indices|
  {
    if indices != [] {
      var last := |indices| - 1;
      DistinctSize(indices[..last]);
      var before := set i | i in indices[..last];
      assert indices == indices[..last] + [indices[last]];
      assert (set i | i in indices) == before + {indices[last]};
      assert indices[last] !in before;
    }
  }

  lemma SelectedCount(indices: seq<int>, n: nat)
    requires Distinct(indices) && InBounds(indices, n)
    ensures Selected(indices, n) == |indices|
  {
    SelectedIsSet(indices, n);
    DistinctSize(indices);
    assert (set i: int | 0 <= i < n && i in indices) == (set i | i in indices);
  }

  function Times(n: nat, t: real): real {
    if n == 0 then 0.0 else Times(n - 1, t) + t
  }

  lemma {:induction false} TimesIs(n: nat, t: real)
    ensures Times(n, t) == n as real * t
  {
    if n > 0 {
      TimesIs(n - 1, t);
      assert n as real * t == (n - 1) as real * t + t;
    }
  }

  /** Up to n: the residual carries at most t for each unselected position, the rest at least t for each selected one. */
  lemma {:induction false} SquaresBounds(effective: Vec, indices: seq<int>, t: real, n: nat)
    requires n <= |effective|
    requires Separates(effective, indices, t)
    ensures Selected(indices, n) <= n
    ensures var kept := Squares(Residual(effective, indices), n);
            && kept <= Times(n - Selected(indices, n), t)
            && Squares(effective, n) - kept >= Times(Selected(indices, n), t)
  {
    if n > 0 {
      SquaresBounds(effective, indices, t, n - 1);
      var i: nat := n - 1;
      if i in indices {
        assert effective[i] * effective[i] >= t;
        assert Residual(effective, indices)[i] == 0.0;
        assert Squares(Residual(effective, indices), n) == Squares(Residual(effective, indices), i);
      } else {
        assert effective[i] * effective[i] <= t;
        assert Residual(effective, indices)[i] == effective[i];
      }
    }
  }

  ghost predicate Separates(effective: Vec, indices: seq<int>, t: real) {
    && (forall i: nat | i < |effective| && i in indices :: effective[i] * effective[i] >= t)
    && (forall i: nat | i < |effective| && i !in indices :: effective[i] * effective[i] <= t)
  }

  lemma SquareOrder(a: real, b: real)
    requires Abs(a) <= Abs(b)
    ensures a * a <= b * b
  {
    SquareMonotone(Abs(a), Abs(b));
  }

  lemma MinimumSeparates(effective: Vec, indices: seq<int>, m: real)
    requires InBounds(indices, |effective|)
    requires forall q | 0 <= q < |indices| :: Abs(m) <= Abs(effective[indices[q]])
    requires forall i | 0 <= i < |effective| && i !in indices :: Abs(effective[i]) <= Abs(m)
    ensures Separates(effective, indices, m * m)
  {
    forall i: nat | i < |effective| && i in indices ensures effective[i] * effective[i] >= m * m {
      var q :| 0 <= q < |indices| && indices[q] == i;
      SquareOrder(m, effective[i]);
    }
    forall i: nat | i < |effective| && i !in indices ensures effective[i] * effective[i] <= m * m {
      SquareOrder(effective[i], m);
    }
  }

  lemma LeastSelected(effective: Vec, indices: seq<int>) returns (p: nat)
    requires indices != [] && InBounds(indices, |effective|)
    ensures p < |indices|
    ensures forall q | 0 <= q < |indices| :: Abs(effective[indices[p]]) <= Abs(effective[indices[q]])
  {
    p := 0;
    for n := 1 to |indices|
      invariant p < |indices|
      invariant forall q | 0 <= q < n :: Abs(effective[indices[p]]) <= Abs(effective[indices[q]])
    {
      if Abs(effective[indices[n]]) < Abs(effective[indices[p]]) {
        p := n;
      }
    }
  }

  lemma SquareMonotone(a: real, b: real)
    requires 0.0 <= a <= b
    ensures a * a <= b * b
  {
    assert b * b - a * a == (b - a) * (b + a);
  }

  lemma NothingSelected(effective: Vec)
    ensures Residual(effective, []) == effective
  {
  }

  predicate WithinShare(n: nat, k: nat, kept: real, all: real)
    requires k <= n
  {
    n as real * kept <= (n - k) as real * all
  }

  /** With k of n values sent, n times the squared norm of the residual is at most n - k times the squared
      norm of the effective gradient. */
  ghost predicate Contracted(effective: Vec, indices: seq<int>)
    requires |indices| <= |effective|
  {
    WithinShare(|effective|, |indices|, Squares(Residual(effective, indices), |effective|), Squares(effective, |effective|))
  }

  lemma SeparatedContracts(effective: Vec, indices: seq<int>, t: real)
    requires t >= 0.0 && Separates(effective, indices, t)
    requires Selected(indices, |effective|) == |indices| <= |effective|
    ensures Contracted(effective, indices)
  {
    var n := |effective|;
    SquaresBounds(effective, indices, t, n);
    Shares(n, |indices|, t, Squares(Residual(effective, indices), n), Squares(effective, n));
  }

  lemma NothingContracts(effective: Vec)
    ensures Contracted(effective, [])
  {
    NothingSelected(effective);
  }

  lemma NonNegativeSquare(m: real)
    ensures m * m >= 0.0
  {
  }

  /** What is left behind shrinks, for every selection that prefers large magnitudes. */
  lemma ResidualContracts(effective: Vec, indices: seq<int>)
    requires Selects(Magnitudes(effective), indices)
    ensures |indices| <= |effective| && Contracted(effective, indices)
  {
    SelectedCount(indices, |effective|);
    SelectedAtMost(indices, |effective|);
    if indices == [] {
      NothingContracts(effective);
    } else {
      var p := LeastSelected(effective, indices);
      var m := effective[indices[p]];
      forall i | 0 <= i < |effective| && i !in indices ensures Abs(effective[i]) <= Abs(m) {
        assert Magnitudes(effective)[i] <= Magnitudes(effective)[indices[p]];
      }
      MinimumSeparates(effective, indices, m);
      NonNegativeSquare(m);
      SeparatedContracts(effective, indices, m * m);
    }
  }

  lemma {:induction false} SelectedAtMost(indices: seq<int>, n: nat)
    ensures Selected(indices, n) <= n
  {
    if n > 0 {
      SelectedAtMost(indices, n - 1);
    }
  }

  lemma Shares(n: nat, k: nat, t: real, kept: real, all: real)
    requires k <= n && t >= 0.0
    requires kept <= Times(n - k, t) && all - kept >= Times(k, t)
    ensures WithinShare(n, k, kept, all)
  {
    TimesIs(n - k, t);
    TimesIs(k, t);
    SharesReal(k as real, (n - k) as real, t, kept, all - kept);
  }

  lemma SharesReal(k: real, m: real, t: real, kept: real, sent: real)
    requires k >= 0.0 && m >= 0.0 && t >= 0.0
    requires kept <= m * t && sent >= k * t
    ensures (k + m) * kept <= m * (kept + sent)
  {
    assert k * kept <= k * (m * t);
    assert m * sent >= m * (k * t);
    assert k * (m * t) == m * (k * t);
  }

  // ---------- a topk that keeps its promise ----------

  /** The first of the largest values below n that is not taken; -1 if all are. */
  function Best(magnitudes: Vec, taken: seq<int>, n: nat): int
    requires n <= |magnitudes|
  {
    if n == 0 then -1
    else
      var best := Best(magnitudes, taken, n - 1);
      if n - 1 in taken || (0 <= best < n - 1 && magnitudes[best] >= magnitudes[n-1]) then best else n - 1
  }

  lemma {:induction false} BestIs(magnitudes: Vec, taken: seq<int>, n: nat)
    requires n <= |magnitudes|
    ensures var best := Best(magnitudes, taken, n);
            && -1 <= best < n
            && (best >= 0 ==> best !in taken)
            && (forall j | 0 <= j < n && j !in taken :: best >= 0 && magnitudes[j] <= magnitudes[best])
  {
    if n > 0 {
      BestIs(magnitudes, taken, n - 1);
    }
  }

  function Largest(magnitudes: Vec, k: nat): (indices: seq<int>)
    ensures |indices| == k
  {
    if k == 0 then []
    else
      var before := Largest(magnitudes, k - 1);
      before + [Best(magnitudes, before, |magnitudes|)]
  }

  lemma {:induction false} AllSelected(indices: seq<int>, n: nat)
    requires forall j | 0 <= j < n :: j in indices
    ensures Selected(indices, n) == n
  {
    if n > 0 {
      AllSelected(indices, n - 1);
    }
  }

  lemma {:induction false} LargestIs(magnitudes: Vec, k: nat)
    requires k <= |magnitudes|
    ensures IsTopK(magnitudes, k, Largest(magnitudes, k))
  {
    if k > 0 {
      LargestIs(magnitudes, k - 1);
      var before := Largest(magnitudes, k - 1);
      var best := Best(magnitudes, before, |magnitudes|);
      BestIs(magnitudes, before, |magnitudes|);
      SelectedCount(before, |magnitudes|);
      if best < 0 {
        AllSelected(before, |magnitudes|);
      }
      OneMoreDominates(magnitudes, before, best);
    }
  }

  lemma OneMoreDominates(magnitudes: Vec, before: seq<int>, best: int)
    requires Selects(magnitudes, before) && 0 <= best < |magnitudes| && best !in before
    requires forall j | 0 <= j < |magnitudes| && j !in before :: magnitudes[j] <= magnitudes[best]
    ensures Selects(magnitudes, before + [best])
  {
    var indices := before + [best];
    assert forall p | 0 <= p < |before| :: before[p] in before;
    forall p, j | 0 <= p < |indices| && 0 <= j < |magnitudes| && j !in indices
      ensures magnitudes[j] <= magnitudes[indices[p]]
    {
      assert j !in before;
    }
  }

  /** There is such a topk: repeatedly taking the largest value that is left. */
  lemma TopKExists()
    ensures GoodTopK(Largest)
  {
    forall m: Vec, k: nat | k <= |m| ensures IsTopK(m, k, Largest(m, k)) {
      LargestIs(m, k);
    }
  }
}
