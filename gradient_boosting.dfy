/**
 * GradientBoosting (src/models/GradientBoosting.cpp): a constant initial
 * prediction (the target mean) refined by nEstimators regression trees,
 * each fitted to the pseudo-residuals of the loss at the current
 * predictions and added with weight learningRate.
 */
module GradientBoostings {
  import opened Wrappers
  import opened Strings
  import opened Trees
  import opened ModelCommon
  import opened Growth

  // ---------------------------------------------------------------------
  // Pseudo-residuals
  // ---------------------------------------------------------------------

  /** -1, 0 or 1 after the sign of d. */
  function Sign(d: real): real
  {
    if d > 0.0 then 1.0 else if d < 0.0 then -1.0 else 0.0
  }

  /** d clipped to [-1, 1]: the Huber gradient with delta 1. */
  function Clip(d: real): real
  {
    if d > 1.0 then 1.0 else if d < -1.0 then -1.0 else d
  }

  /**
   * The negative gradient of the loss at prediction f for target y:
   * y - f for squared error (and for every loss name the source does not
   * recognise), its sign for absolute error, and y - f clipped to [-1, 1]
   * for Huber. It always points from the prediction toward the target.
   */
  function PseudoResidual(loss: string, y: real, f: real): (r: real)
    ensures r > 0.0 <==> y > f
    ensures r < 0.0 <==> y < f
    ensures loss == "absolute_error" ==> r == Sign(y - f)
    ensures loss == "huber" ==> r == Clip(y - f)
    ensures loss != "absolute_error" && loss != "huber" ==> r + f == y
  {
    var diff := y - f;
    if loss == "squared_error" then diff
    else if loss == "absolute_error" then
      if diff > 0.0 then 1.0 else if diff < 0.0 then -1.0 else 0.0
    else if loss == "huber" then
      if (if diff < 0.0 then -diff else diff) <= 1.0 then diff
      else 1.0 * (if diff > 0.0 then 1.0 else -1.0)
    else diff
  }

  /** The pseudo-residuals of every sample. */
  function Residuals(loss: string, y: seq<real>, F: seq<real>): (r: seq<real>)
    requires |F| == |y|
    ensures |r| == |y|
  {
    seq(|y|, i requires 0 <= i < |y| => PseudoResidual(loss, y[i], F[i]))
  }

  /** The absolute-error and Huber residuals never leave [-1, 1]. */
  lemma BoundedResiduals(loss: string, y: seq<real>, F: seq<real>)
    requires |F| == |y| && (loss == "absolute_error" || loss == "huber")
    ensures forall k :: 0 <= k < |y| ==> -1.0 <= Residuals(loss, y, F)[k] <= 1.0
  {
  }

  /** calculatePseudoResiduals. */
  method CalculatePseudoResiduals(loss: string, y: seq<real>, F: seq<real>) returns (r: seq<real>)
    requires |F| == |y|
    ensures r == Residuals(loss, y, F)
  {
    if loss == "squared_error" {
      return seq(|y|, i requires 0 <= i < |y| => y[i] - F[i]);
    }
    r := [];
    var i := 0;
    while i < |y|
      invariant 0 <= i <= |y| && |r| == i
      invariant forall j :: 0 <= j < i ==> r[j] == PseudoResidual(loss, y[j], F[j])
    {
      var diff := y[i] - F[i];
      var g;
      if loss == "absolute_error" {
        g := if diff > 0.0 then 1.0 else if diff < 0.0 then -1.0 else 0.0;
      } else if loss == "huber" {
        var size := if diff < 0.0 then -diff else diff;
        g := if size <= 1.0 then diff else if diff > 0.0 then 1.0 else -1.0;
      } else {
        g := diff;
      }
      r := r + [g];
      i := i + 1;
    }
  }

  // ---------------------------------------------------------------------
  // The initial prediction
  // ---------------------------------------------------------------------

  /** The sum over the first k samples of y - c. */
  lemma {:induction false} ShiftedSum(y: seq<real>, F: seq<real>, c: real, k: nat)
    requires |F| == |y| && k <= |y| && forall i :: 0 <= i < |F| ==> F[i] == c
    ensures Sum(Residuals("squared_error", y, F), Iota(k)) == Sum(y, Iota(k)) - k as real * c
  {
    if k > 0 {
      assert Iota(k)[..k - 1] == Iota(k - 1);
      ShiftedSum(y, F, c, k - 1);
    }
  }

  /** The mean is the best constant for squared error: the residuals of
      the initial predictions sum to zero. */
  lemma CenteredResiduals(y: seq<real>, F: seq<real>)
    requires |F| == |y| && forall i :: 0 <= i < |F| ==> F[i] == TargetMean(y)
    ensures Sum(Residuals("squared_error", y, F), Iota(|y|)) == 0.0
  {
    ShiftedSum(y, F, TargetMean(y), |y|);
    if |y| > 0 {
      assert |y| as real * (Sum(y, Iota(|y|)) / |y| as real) == Sum(y, Iota(|y|));
    }
  }

  // ---------------------------------------------------------------------
  // Subsampling
  // ---------------------------------------------------------------------

  /** The number of samples each tree sees: static_cast<int>(n * subsample)
      when subsample < 1 (a negative product, which the source cannot
      handle, reads as 0), otherwise n. */
  function SubsampleSize(n: nat, subsample: real): (size: nat)
    ensures size <= n
    ensures subsample >= 1.0 ==> size == n
    ensures 0.0 <= subsample < 1.0 ==> size as real <= n as real * subsample < size as real + 1.0
  {
    if subsample < 1.0 then
      var s := Truncate(n as real * subsample);
      if s < 0 then 0
      else
        assert n as real * subsample <= n as real * 1.0;
        s
    else n
  }

  /** The sample list of one tree: `size` distinct samples below m. */
  ghost predicate Subsampled(samples: seq<nat>, m: nat, size: nat)
  {
    |samples| == size && Distinct(samples) && InRange(samples, m)
  }

  // ---------------------------------------------------------------------
  // The ensemble's prediction
  // ---------------------------------------------------------------------

  /** learningRate times one tree's prediction. */
  function Scaled(lr: real, x: seq<real>, root: Node): real
    requires FeaturesBelow(root, |x|)
  {
    lr * PredictTree(x, root)
  }

  /** initialPrediction plus learningRate times each tree's prediction,
      added tree by tree. */
  function Boosted(init: real, lr: real, trees: seq<Tree>, x: seq<real>): real
    requires Shapes(trees, |x|)
  {
    if trees == [] then init
    else Boosted(init, lr, trees[..|trees| - 1], x) + Scaled(lr, x, trees[|trees| - 1].root)
  }

  /** Adding the trees one by one is scaling their sum once. */
  lemma {:induction false} BoostedIsScaledSum(init: real, lr: real, trees: seq<Tree>, x: seq<real>)
    requires Shapes(trees, |x|)
    ensures Boosted(init, lr, trees, x) == init + lr * TreeSum(trees, x)
  {
    if trees != [] {
      BoostedIsScaledSum(init, lr, trees[..|trees| - 1], x);
    }
  }

  /** The ensemble's prediction for every row of X. */
  function Fitted(init: real, lr: real, trees: seq<Tree>, X: seq<seq<real>>, n: nat): (F: seq<real>)
    requires Shaped(X, n) && Shapes(trees, n)
    ensures |F| == |X|
  {
    seq(|X|, i requires 0 <= i < |X| => Boosted(init, lr, trees, X[i]))
  }

  /**
   * Tree k of a fit is grown by the rules from its own subsample, on the
   * pseudo-residuals of the predictions of the initial value and trees
   * 0..k-1.
   */
  ghost predicate BoostedAt(grown: seq<Tree>, lays: seq<Layout>, X: seq<seq<real>>, y: seq<real>, init: real, lr: real,
                            loss: string, rules: Rules, n: nat, size: nat, k: nat)
    requires |lays| == |grown| && |y| == |X| && Shaped(X, n) && Shapes(grown, n) && k < |grown|
  {
    GrownTree(grown[k], lays[k], X, Residuals(loss, y, Fitted(init, lr, grown[..k], X, n)), rules, n)
    && Subsampled(lays[k].samples, |X|, size)
  }

  /** The trees of a fit: every one of them boosted as BoostedAt says. */
  ghost predicate AllBoosted(grown: seq<Tree>, lays: seq<Layout>, X: seq<seq<real>>, y: seq<real>, init: real, lr: real,
                             loss: string, rules: Rules, n: nat, size: nat)
    requires |lays| == |grown| && |y| == |X| && Shaped(X, n) && Shapes(grown, n)
  {
    forall k :: 0 <= k < |grown| ==> BoostedAt(grown, lays, X, y, init, lr, loss, rules, n, size, k)
  }

  /**
   * With absolute-error or Huber loss every tree is fitted to residuals in
   * [-1, 1], so adding it moves any prediction by at most |learningRate|.
   */
  lemma BoundedStep(grown: seq<Tree>, lays: seq<Layout>, X: seq<seq<real>>, y: seq<real>, init: real, lr: real,
                    loss: string, rules: Rules, n: nat, size: nat, t: nat, x: seq<real>)
    requires |lays| == |grown| && |y| == |X| && Shaped(X, n) && Shapes(grown, n) && t < |grown| && |x| == n
    requires AllBoosted(grown, lays, X, y, init, lr, loss, rules, n, size)
    requires loss == "absolute_error" || loss == "huber"
    ensures -Magnitude(lr) <= Boosted(init, lr, grown[..t + 1], x) - Boosted(init, lr, grown[..t], x) <= Magnitude(lr)
  {
    assert BoostedAt(grown, lays, X, y, init, lr, loss, rules, n, size, t);
    var F := Fitted(init, lr, grown[..t], X, n);
    var r := Residuals(loss, y, F);
    var root := grown[t].root;
    BoundedResiduals(loss, y, F);
    LeafOutputsBetween(root, lays[t], X, r, rules, -1.0, 1.0);
    OutputBetween(root, x, -1.0, 1.0);
    assert grown[..t + 1] == grown[..t] + [grown[t]];
    BoostedAppend(init, lr, grown[..t], grown[t], x);
    ScaledBetween(lr, x, root);
  }

  /** |r|. */
  function Magnitude(r: real): real
  {
    if r < 0.0 then -r else r
  }

  /** A prediction in [-1, 1] scaled by lr stays within |lr|. */
  lemma ScaledBetween(lr: real, x: seq<real>, root: Node)
    requires FeaturesBelow(root, |x|) && -1.0 <= PredictTree(x, root) <= 1.0
    ensures -Magnitude(lr) <= Scaled(lr, x, root) <= Magnitude(lr)
  {
    ProductWithin(lr, PredictTree(x, root));
  }

  lemma ProductWithin(a: real, p: real)
    requires -1.0 <= p <= 1.0
    ensures -Magnitude(a) <= a * p <= Magnitude(a)
  {
    if a < 0.0 {
      ProductNonNegative(-a, 1.0 - p);
      ProductNonNegative(-a, 1.0 + p);
    } else {
      ProductNonNegative(a, 1.0 - p);
      ProductNonNegative(a, 1.0 + p);
    }
  }

  lemma ProductNonNegative(a: real, b: real)
    requires a >= 0.0 && b >= 0.0
    ensures a * b >= 0.0
  {
  }

  /** A tree grown at the root from any sample list (possibly empty) on
      targets in [lo, hi], with lo <= 0 <= hi, has all its outputs in
      [lo, hi]. */
  lemma LeafOutputsBetween(root: Node, lay: Layout, X: seq<seq<real>>, r: seq<real>, rules: Rules, lo: real, hi: real)
    requires Grown(root, lay, X, r, 0, rules)
    requires InRange(lay.samples, |r|) && lo <= 0.0 <= hi
    requires forall k :: 0 <= k < |r| ==> lo <= r[k] <= hi
    ensures forall k :: 0 <= k < |Outputs(root)| ==> lo <= Outputs(root)[k] <= hi
  {
    if lay.samples != [] {
      TargetsOfSamples(r, lay.samples, lo, hi);
      OutputsBetween(root, lay, X, r, 0, rules, lo, hi);
    }
  }

  /** Appending a tree adds learningRate times its prediction. */
  lemma BoostedAppend(init: real, lr: real, trees: seq<Tree>, t: Tree, x: seq<real>)
    requires Shapes(trees, |x|) && FeaturesBelow(t.root, |x|) && |t.importance| == |x|
    ensures Shapes(trees + [t], |x|)
    ensures Boosted(init, lr, trees + [t], x) == Boosted(init, lr, trees, x) + Scaled(lr, x, t.root)
  {
    assert (trees + [t])[..|trees|] == trees;
  }

  /** The running predictions after one more tree. */
  lemma FittedAppend(init: real, lr: real, trees: seq<Tree>, t: Tree, X: seq<seq<real>>, n: nat, F: seq<real>, G: seq<real>)
    requires Shaped(X, n) && Shapes(trees, n) && FeaturesBelow(t.root, n) && |t.importance| == n
    requires F == Fitted(init, lr, trees, X, n)
    requires |G| == |X| && forall i :: 0 <= i < |X| ==> G[i] == F[i] + Scaled(lr, X[i], t.root)
    ensures Shapes(trees + [t], n)
    ensures G == Fitted(init, lr, trees + [t], X, n)
  {
    assert Shapes(trees + [t], n);
    forall i | 0 <= i < |X| ensures G[i] == Boosted(init, lr, trees + [t], X[i]) {
      BoostedAppend(init, lr, trees, t, X[i]);
    }
  }

  /** One round of boosting keeps the loop's invariant: the trees so far
      are boosted, and F holds their predictions for the training rows. */
  lemma BoostStep(grown: seq<Tree>, lays: seq<Layout>, t: Tree, lay: Layout, X: seq<seq<real>>, y: seq<real>,
                  init: real, lr: real, loss: string, rules: Rules, n: nat, size: nat,
                  F: seq<real>, r: seq<real>, G: seq<real>)
    requires |lays| == |grown| && |y| == |X| && Shaped(X, n) && Shapes(grown, n)
    requires AllBoosted(grown, lays, X, y, init, lr, loss, rules, n, size)
    requires F == Fitted(init, lr, grown, X, n) && r == Residuals(loss, y, F)
    requires GrownTree(t, lay, X, r, rules, n) && Subsampled(lay.samples, |X|, size)
    requires |G| == |X| && forall i :: 0 <= i < |X| ==> G[i] == F[i] + Scaled(lr, X[i], t.root)
    ensures Shapes(grown + [t], n)
    ensures AllBoosted(grown + [t], lays + [lay], X, y, init, lr, loss, rules, n, size)
    ensures G == Fitted(init, lr, grown + [t], X, n)
  {
    AllBoostedAppend(grown, lays, t, lay, X, y, init, lr, loss, rules, n, size, r);
    FittedAppend(init, lr, grown, t, X, n, F, G);
  }

  /** A tree grown on the residuals of the current predictions extends the
      boosted sequence. */
  lemma AllBoostedAppend(grown: seq<Tree>, lays: seq<Layout>, t: Tree, lay: Layout, X: seq<seq<real>>, y: seq<real>,
                         init: real, lr: real, loss: string, rules: Rules, n: nat, size: nat, r: seq<real>)
    requires |lays| == |grown| && |y| == |X| && Shaped(X, n) && Shapes(grown, n)
    requires AllBoosted(grown, lays, X, y, init, lr, loss, rules, n, size)
    requires r == Residuals(loss, y, Fitted(init, lr, grown, X, n)) && GrownTree(t, lay, X, r, rules, n)
    requires Subsampled(lay.samples, |X|, size)
    ensures Shapes(grown + [t], n)
    ensures AllBoosted(grown + [t], lays + [lay], X, y, init, lr, loss, rules, n, size)
  {
    forall k | 0 <= k < |grown| + 1
      ensures BoostedAt(grown + [t], lays + [lay], X, y, init, lr, loss, rules, n, size, k)
    {
      if k < |grown| {
        assert (grown + [t])[..k] == grown[..k];
        assert BoostedAt(grown, lays, X, y, init, lr, loss, rules, n, size, k);
      } else {
        assert (grown + [t])[..k] == grown;
      }
    }
  }

  // ---------------------------------------------------------------------
  // The model
  // ---------------------------------------------------------------------

  class GradientBoosting {
    var learningRate: real
    var nEstimators: int
    var maxDepth: int
    var minSamplesSplit: int
    var minSamplesLeaf: int
    var subsample: real
    var loss: string

    var isFitted: bool
    var nSamples: nat
    var nFeatures: nat
    var initialPrediction: real
    var names: seq<string>
    var target: string
    var trees: seq<Tree>
    var importanceScores: map<string, real>

    ghost predicate Valid()
      reads this
    {
      Shapes(trees, nFeatures)
    }

    /** The default constructor: learning rate 0.1, 100 trees, depth 3,
        split 2, leaf 1, no subsampling, squared error. */
    constructor ()
      ensures Valid() && !isFitted && trees == []
      ensures learningRate == 0.1 && nEstimators == 100 && maxDepth == 3 && minSamplesSplit == 2
      ensures minSamplesLeaf == 1 && subsample == 1.0 && loss == "squared_error"
    {
      learningRate, nEstimators, maxDepth, minSamplesSplit := 0.1, 100, 3, 2;
      minSamplesLeaf, subsample, loss := 1, 1.0, "squared_error";
      isFitted, nSamples, nFeatures, initialPrediction := false, 0, 0, 0.0;
      names, target, trees, importanceScores := [], "", [], map[];
    }

    constructor WithParameters(learningRate: real, nEstimators: int, maxDepth: int, minSamplesSplit: int,
                               minSamplesLeaf: int, subsample: real, loss: string)
      ensures Valid() && !isFitted && trees == []
      ensures this.learningRate == learningRate && this.nEstimators == nEstimators && this.maxDepth == maxDepth
      ensures this.minSamplesSplit == minSamplesSplit && this.minSamplesLeaf == minSamplesLeaf
      ensures this.subsample == subsample && this.loss == loss
    {
      this.learningRate, this.nEstimators, this.maxDepth := learningRate, nEstimators, maxDepth;
      this.minSamplesSplit, this.minSamplesLeaf := minSamplesSplit, minSamplesLeaf;
      this.subsample, this.loss := subsample, loss;
      isFitted, nSamples, nFeatures, initialPrediction := false, 0, 0, 0.0;
      names, target, trees, importanceScores := [], "", [], map[];
    }

    /** The rules buildTree grows by: the model's depth and sample limits,
        no variance floor, and every feature considered at each node. */
    function GrowRules(): Rules
      reads this`maxDepth, this`minSamplesSplit, this`minSamplesLeaf, this`nFeatures
    {
      Rules(maxDepth, minSamplesSplit, minSamplesLeaf, false, EveryFeature(nFeatures))
    }

    /** The samples of one tree (fit, lines 82-95): the first
        SubsampleSize of a shuffled 0..nSamples-1 when subsample < 1,
        otherwise every sample in order. */
    method SubsampleIndices(e: Engine, from: nat) returns (idx: seq<nat>, next: nat)
      requires Sound(e)
      ensures Subsampled(idx, nSamples, SubsampleSize(nSamples, subsample))
      ensures subsample < 1.0 ==> idx == e.shuffle(from, nSamples)[..|idx|] && next == from + 1
      ensures subsample >= 1.0 ==> idx == Iota(nSamples) && next == from
    {
      if subsample < 1.0 {
        var size := Truncate(nSamples as real * subsample);
        var order := e.shuffle(from, nSamples);
        assert IsPermutation(order, nSamples);
        if size < 0 {
          size := 0;
        }
        assert size == SubsampleSize(nSamples, subsample);
        idx := order[..size];
        next := from + 1;
      } else {
        idx := [];
        var j := 0;
        while j < nSamples
          invariant 0 <= j <= nSamples && |idx| == j
          invariant forall i :: 0 <= i < j ==> idx[i] == i
        {
          idx := idx + [j];
          j := j + 1;
        }
        next := from;
        assert Distinct(idx) by {
          assert forall a, b :: 0 <= a < b < |idx| ==> idx[a] != idx[b];
        }
      }
    }

    /**
     * buildTree: a leaf holding the mean residual when a stop rule holds;
     * otherwise the best split over every feature, a leaf again when there
     * is none or a side is too small, and otherwise a split node whose
     * feature gains size * impurityDecrease of importance, with its left
     * subtree built before its right one.
     */
    method BuildTree(X: seq<seq<real>>, r: seq<real>, samples: seq<nat>, depth: int, importance: seq<real>)
      returns (node: Node, newImportance: seq<real>, ghost lay: Layout)
      requires Shaped(X, nFeatures) && InRange(samples, |X|) && InRange(samples, |r|)
      requires |importance| == nFeatures
      ensures lay.samples == samples
      ensures Grown(node, lay, X, r, depth, GrowRules()) && FeaturesBelow(node, nFeatures)
      ensures |newImportance| == nFeatures
      ensures forall g :: 0 <= g < nFeatures ==> newImportance[g] == importance[g] + Gain(node, lay, r, g)
      decreases maxDepth - depth
    {
      if depth >= maxDepth || |samples| < minSamplesSplit || |samples| <= minSamplesLeaf || samples == [] {
        node, lay := MakeLeaf(X, r, samples, depth, []);
        return node, importance, lay;
      }
      var features := Iota(nFeatures);
      ReadableFeatures(X, samples, features, nFeatures);
      var feature, split, score, decrease, left, right := FindBestSplit(X, r, samples, features, minSamplesLeaf);
      if feature == -1 || left == [] || right == [] || |left| < minSamplesLeaf || |right| < minSamplesLeaf {
        node, lay := MakeLeaf(X, r, samples, depth, features);
        return node, importance, lay;
      }
      var imp := importance[feature := importance[feature] + |samples| as real * decrease];
      PartsInRange(samples, left, right, |r|);
      PartsInRange(samples, left, right, |X|);
      var l, impL, layL := BuildTree(X, r, left, depth + 1, imp);
      var rt, impR, layR := BuildTree(X, r, right, depth + 1, impL);
      node := Split(feature, split, l, rt);
      lay := SplitAt(samples, features, layL, layR);
      SplitGrown(X, r, samples, features, depth, feature, split, decrease, l, rt, layL, layR);
      GainOfSplit(r, samples, features, feature, split, l, rt, layL, layR, decrease, importance, imp, impL, impR, nFeatures);
      return node, impR, lay;
    }

    /** A leaf holding the mean of the samples' residuals, made for one of
        the reasons buildTree has for a leaf. */
    method MakeLeaf(ghost X: seq<seq<real>>, r: seq<real>, samples: seq<nat>, depth: int, ghost features: seq<nat>)
      returns (node: Node, ghost lay: Layout)
      requires InRange(samples, |r|) && LeafReason(X, r, samples, features, depth, GrowRules())
      ensures lay.samples == samples && node.Leaf? && node.output == Mean(r, samples)
      ensures Grown(node, lay, X, r, depth, GrowRules()) && FeaturesBelow(node, nFeatures)
    {
      var m := CalculateMean(r, samples);
      node, lay := Leaf(m), LeafAt(samples, features);
    }

    /** The facts FindBestSplit and the recursive calls establish make the
        split node a grown tree. */
    lemma SplitGrown(X: seq<seq<real>>, r: seq<real>, samples: seq<nat>, features: seq<nat>, depth: int, feature: nat,
                     split: real, decrease: real, l: Node, rt: Node, layL: Layout, layR: Layout)
      requires !Stops(GrowRules(), depth, samples)
      requires samples != [] && features == Iota(nFeatures)
      requires BestCut(X, r, samples, features, minSamplesLeaf) == Best(feature, split, decrease, layL.samples, layR.samples)
      requires multiset(layL.samples + layR.samples) == multiset(samples)
      requires forall k :: 0 <= k < |layL.samples| ==> Value(X, layL.samples[k], feature) < split
      requires forall k :: 0 <= k < |layR.samples| ==> Value(X, layR.samples[k], feature) > split
      requires BigEnough(GrowRules(), layL.samples, layR.samples)
      requires Grown(l, layL, X, r, depth + 1, GrowRules()) && Grown(rt, layR, X, r, depth + 1, GrowRules())
      ensures Grown(Split(feature, split, l, rt), SplitAt(samples, features, layL, layR), X, r, depth, GrowRules())
    {
    }

    /** Adds learningRate times one tree's prediction to every row's
        running prediction (fit, lines 101-103, and predict). */
    method AddScaledTree(F: seq<real>, X: seq<seq<real>>, root: Node) returns (G: seq<real>)
      requires |F| == |X| && Shaped(X, nFeatures) && FeaturesBelow(root, nFeatures)
      ensures |G| == |X| && forall i :: 0 <= i < |X| ==> G[i] == F[i] + Scaled(learningRate, X[i], root)
    {
      G := F;
      var i := 0;
      while i < |X|
        invariant 0 <= i <= |X| && |G| == |X|
        invariant forall j :: 0 <= j < i ==> G[j] == F[j] + Scaled(learningRate, X[j], root)
        invariant forall j :: i <= j < |X| ==> G[j] == F[j]
      {
        G := G[i := G[i] + learningRate * PredictTree(X[i], root)];
        i := i + 1;
      }
    }

    /**
     * The boosting loop of fit: nEstimators rounds (none when it is not
     * positive), each growing a tree on the pseudo-residuals of the current
     * predictions F and adding learningRate times its prediction to F.
     * F ends equal to what predict computes for the training rows.
     */
    method Boost(X: seq<seq<real>>, y: seq<real>, init: real, e: Engine)
      returns (grown: seq<Tree>, ghost lays: seq<Layout>, F: seq<real>)
      requires Shaped(X, nFeatures) && |X| == nSamples && |y| == nSamples && Sound(e)
      ensures |grown| == |lays| == (if nEstimators > 0 then nEstimators else 0) && Shapes(grown, nFeatures)
      ensures AllBoosted(grown, lays, X, y, init, learningRate, loss, GrowRules(), nFeatures, SubsampleSize(nSamples, subsample))
      ensures F == Fitted(init, learningRate, grown, X, nFeatures)
    {
      grown, lays := [], [];
      F := seq(|X|, _ => init);
      var next := 0;
      var m := 0;
      while m < nEstimators
        invariant 0 <= m && (m == 0 || m <= nEstimators) && |grown| == |lays| == m && Shapes(grown, nFeatures)
        invariant AllBoosted(grown, lays, X, y, init, learningRate, loss, GrowRules(), nFeatures, SubsampleSize(nSamples, subsample))
        invariant F == Fitted(init, learningRate, grown, X, nFeatures)
      {
        var residuals := CalculatePseudoResiduals(loss, y, F);
        var t, lay, G, afterShuffle := Round(X, residuals, e, next, F);
        BoostStep(grown, lays, t, lay, X, y, init, learningRate, loss, GrowRules(), nFeatures,
                  SubsampleSize(nSamples, subsample), F, residuals, G);
        grown, lays, F, next := grown + [t], lays + [lay], G, afterShuffle;
        m := m + 1;
      }
    }

    /** One round of boosting: a subsample, a tree grown on the
        pseudo-residuals r, and the running predictions F moved by
        learningRate times the tree. */
    method Round(X: seq<seq<real>>, r: seq<real>, e: Engine, next: nat, F: seq<real>)
      returns (t: Tree, ghost lay: Layout, G: seq<real>, next': nat)
      requires Shaped(X, nFeatures) && |X| == nSamples && |r| == nSamples && |F| == nSamples && Sound(e)
      ensures GrownTree(t, lay, X, r, GrowRules(), nFeatures)
      ensures Subsampled(lay.samples, |X|, SubsampleSize(nSamples, subsample))
      ensures |G| == |X| && forall i :: 0 <= i < |X| ==> G[i] == F[i] + Scaled(learningRate, X[i], t.root)
    {
      var samples;
      samples, next' := SubsampleIndices(e, next);
      var zero := seq(nFeatures, _ => 0.0);
      var root, importance;
      root, importance, lay := BuildTree(X, r, samples, 0, zero);
      G := AddScaledTree(F, X, root);
      t := Tree(root, importance);
    }

    /**
     * fit as the source has it: after growing the trees it computes the
     * training predictions with predict(X), which throws before isFitted is
     * set, so on a model that was never fitted fit returns false, leaving
     * the new trees and names in place and the model unfitted.
     */
    method FitAsWritten(X: seq<seq<real>>, cols: nat, y: seq<real>, variableNames: seq<string>, targetName: string, e: Engine)
      returns (ok: bool)
      requires Shaped(X, cols) && Sound(e) && Valid()
      modifies this
      ensures learningRate == old(learningRate) && nEstimators == old(nEstimators) && maxDepth == old(maxDepth)
      ensures minSamplesSplit == old(minSamplesSplit) && minSamplesLeaf == old(minSamplesLeaf)
      ensures subsample == old(subsample) && loss == old(loss)
      ensures Valid()
      ensures ok <==> |X| == |y| && old(isFitted)
      ensures |X| != |y| ==> unchanged(this)
      ensures |X| == |y| && !old(isFitted) ==> !isFitted && importanceScores == old(importanceScores)
      ensures |X| == |y| ==> nSamples == |X| && nFeatures == cols && initialPrediction == TargetMean(y)
      ensures |X| == |y| ==> names == InputNames(variableNames, cols) && target == TargetName(targetName)
      ensures ok ==> isFitted && importanceScores == ImportanceScores(names, Totals(ImportanceVectors(trees), nFeatures), nFeatures)
    {
      if |X| != |y| {
        return false;
      }
      SetShape(|X|, cols);
      var newNames := InputNames(variableNames, cols);
      var init, grown, scores;
      ghost var lays;
      init, grown, lays, scores := Train(X, y, newNames, e);
      RecordModel(newNames, TargetName(targetName), init, grown);
      var predictions := Predict(X, cols);
      if predictions.Err? {
        return false;
      }
      MarkFitted(scores);
      return true;
    }

    /**
     * fit as intended: false, with nothing changed, when X and y differ in
     * their number of rows; otherwise the trees are boosted from the
     * target mean (lays: the samples each tree was grown from), the
     * feature importance computed and the model marked fitted. The
     * training predictions are the F the boosting loop keeps, which equals
     * what predict returns for the training rows.
     */
    method Fit(X: seq<seq<real>>, cols: nat, y: seq<real>, variableNames: seq<string>, targetName: string, e: Engine)
      returns (ok: bool, ghost lays: seq<Layout>)
      requires Shaped(X, cols) && Sound(e) && Valid()
      modifies this
      ensures learningRate == old(learningRate) && nEstimators == old(nEstimators) && maxDepth == old(maxDepth)
      ensures minSamplesSplit == old(minSamplesSplit) && minSamplesLeaf == old(minSamplesLeaf)
      ensures subsample == old(subsample) && loss == old(loss)
      ensures Valid()
      ensures ok <==> |X| == |y|
      ensures !ok ==> unchanged(this)
      ensures ok ==> isFitted && nSamples == |X| && nFeatures == cols
      ensures ok ==> names == InputNames(variableNames, cols) && target == TargetName(targetName)
      ensures ok ==> initialPrediction == TargetMean(y) && |trees| == |lays| == (if nEstimators > 0 then nEstimators else 0)
      ensures ok ==> AllBoosted(trees, lays, X, y, initialPrediction, learningRate, loss, GrowRules(), nFeatures,
                                SubsampleSize(nSamples, subsample))
      ensures ok ==> importanceScores == ImportanceScores(names, Totals(ImportanceVectors(trees), nFeatures), nFeatures)
    {
      if |X| != |y| {
        return false, [];
      }
      SetShape(|X|, cols);
      var newNames := InputNames(variableNames, cols);
      var init, grown, scores;
      init, grown, lays, scores := Train(X, y, newNames, e);
      RecordModel(newNames, TargetName(targetName), init, grown);
      MarkFitted(scores);
      return true, lays;
    }

    /** What fit computes once the shape is recorded: the target mean, the
        boosted trees and their importance map. */
    method Train(X: seq<seq<real>>, y: seq<real>, newNames: seq<string>, e: Engine)
      returns (init: real, grown: seq<Tree>, ghost lays: seq<Layout>, scores: map<string, real>)
      requires Shaped(X, nFeatures) && |X| == nSamples && |y| == nSamples && Sound(e)
      ensures init == TargetMean(y)
      ensures |grown| == |lays| == (if nEstimators > 0 then nEstimators else 0) && Shapes(grown, nFeatures)
      ensures AllBoosted(grown, lays, X, y, init, learningRate, loss, GrowRules(), nFeatures, SubsampleSize(nSamples, subsample))
      ensures scores == ImportanceScores(newNames, Totals(ImportanceVectors(grown), nFeatures), nFeatures)
    {
      init := CalculateMean(y, Iota(|y|));
      var F;
      grown, lays, F := Boost(X, y, init, e);
      scores := CalculateFeatureImportance(newNames, ImportanceVectors(grown), nFeatures);
    }

    /** The shape of the training data, recorded before the trees are grown. */
    method SetShape(m: nat, n: nat)
      modifies this
      ensures learningRate == old(learningRate) && nEstimators == old(nEstimators) && maxDepth == old(maxDepth)
      ensures minSamplesSplit == old(minSamplesSplit) && minSamplesLeaf == old(minSamplesLeaf)
      ensures subsample == old(subsample) && loss == old(loss)
      ensures nSamples == m && nFeatures == n
      ensures isFitted == old(isFitted) && importanceScores == old(importanceScores)
    {
      nSamples, nFeatures := m, n;
    }

    /** The names, the initial prediction and the trees of a fit. */
    method RecordModel(newNames: seq<string>, newTarget: string, init: real, grown: seq<Tree>)
      modifies this
      ensures learningRate == old(learningRate) && nEstimators == old(nEstimators) && maxDepth == old(maxDepth)
      ensures minSamplesSplit == old(minSamplesSplit) && minSamplesLeaf == old(minSamplesLeaf)
      ensures subsample == old(subsample) && loss == old(loss)
      ensures names == newNames && target == newTarget && initialPrediction == init && trees == grown
      ensures nSamples == old(nSamples) && nFeatures == old(nFeatures)
      ensures isFitted == old(isFitted) && importanceScores == old(importanceScores)
    {
      names, target, initialPrediction, trees := newNames, newTarget, init, grown;
    }

    /** The importance map, and the model marked fitted. */
    method MarkFitted(scores: map<string, real>)
      modifies this
      ensures learningRate == old(learningRate) && nEstimators == old(nEstimators) && maxDepth == old(maxDepth)
      ensures minSamplesSplit == old(minSamplesSplit) && minSamplesLeaf == old(minSamplesLeaf)
      ensures subsample == old(subsample) && loss == old(loss)
      ensures importanceScores == scores && isFitted
      ensures nSamples == old(nSamples) && nFeatures == old(nFeatures) && names == old(names) && target == old(target)
      ensures initialPrediction == old(initialPrediction) && trees == old(trees)
    {
      importanceScores, isFitted := scores, true;
    }

    /**
     * predict: a runtime_error before fit, an invalid_argument when X does
     * not have the training number of columns, otherwise for every row the
     * initial prediction plus learningRate times each tree's prediction.
     */
    method Predict(X: seq<seq<real>>, cols: nat) returns (r: Result<seq<real>>)
      requires Valid() && Shaped(X, cols)
      ensures !isFitted ==> r == Err(RuntimeError(NotFitted))
      ensures isFitted && cols != nFeatures ==> r == Err(InvalidArgument(FeatureMismatch(cols, nFeatures)))
      ensures isFitted && cols == nFeatures ==> r == Ok(Fitted(initialPrediction, learningRate, trees, X, nFeatures))
    {
      if !isFitted {
        return Err(RuntimeError(NotFitted));
      }
      if cols != nFeatures {
        return Err(InvalidArgument(FeatureMismatch(cols, nFeatures)));
      }
      var init := initialPrediction;
      var predictions := seq(|X|, _ => init);
      var t := 0;
      while t < |trees|
        invariant 0 <= t <= |trees|
        invariant predictions == Fitted(initialPrediction, learningRate, trees[..t], X, nFeatures)
      {
        var G := AddScaledTree(predictions, X, trees[t].root);
        assert trees[..t + 1] == trees[..t] + [trees[t]];
        FittedAppend(init, learningRate, trees[..t], trees[t], X, nFeatures, predictions, G);
        predictions := G;
        t := t + 1;
      }
      assert trees[..t] == trees;
      return Ok(predictions);
    }

    /** getFeatureImportance: the normalised map once fitted. */
    method GetFeatureImportance() returns (r: Result<map<string, real>>)
      ensures !isFitted ==> r == Err(RuntimeError(NotFitted))
      ensures isFitted ==> r == Ok(importanceScores)
    {
      if !isFitted {
        return Err(RuntimeError(NotFitted));
      }
      return Ok(importanceScores);
    }

    /** getParameters: the hyperparameters as doubles (the loss is not reported). */
    function Parameters(): (r: map<string, real>)
      reads this
      ensures r.Keys == {"learning_rate", "n_estimators", "max_depth", "min_samples_split", "min_samples_leaf", "subsample"}
      ensures r["learning_rate"] == learningRate && r["subsample"] == subsample
      ensures r["n_estimators"] == nEstimators as real && r["max_depth"] == maxDepth as real
    {
      map["learning_rate" := learningRate, "n_estimators" := nEstimators as real, "max_depth" := maxDepth as real,
          "min_samples_split" := minSamplesSplit as real, "min_samples_leaf" := minSamplesLeaf as real,
          "subsample" := subsample]
    }

    /** getDescription. */
    function Description(): (r: string)
      reads this
      ensures r == "Gradient Boosting Regression with " + IntToString(nEstimators) + " trees and " + LossName(loss)
                   + " loss function."
    {
      "Gradient Boosting Regression with " + IntToString(nEstimators) + " trees and " + LossName(loss) + " loss function."
    }
  }

  /** How getDescription names a loss: the four known ones in words, any
      other as given. */
  function LossName(loss: string): (r: string)
    ensures loss !in {"squared_error", "absolute_error", "huber"} ==> r == loss
    ensures loss in {"squared_error", "absolute_error", "huber"} ==> r != loss && r != ""
  {
    if loss == "squared_error" then "squared error"
    else if loss == "absolute_error" then "absolute error"
    else if loss == "huber" then "Huber"
    else if loss == "quantile" then "quantile"
    else loss
  }
}
