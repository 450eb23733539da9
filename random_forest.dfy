/**
 * RandomForest (src/models/RandomForest.cpp): an ensemble of regression
 * trees, each grown on a bootstrap sample (or on every sample) with a
 * random subset of the features considered at each node, predicting the
 * average of its trees.
 */
module RandomForests {
  import opened Wrappers
  import opened Strings
  import opened Trees
  import opened ModelCommon
  import opened Growth

  // ---------------------------------------------------------------------
  // getNumFeaturesToConsider
  // ---------------------------------------------------------------------

  function Pow2(k: nat): (p: nat)
    ensures p >= 1
  {
    if k == 0 then 1 else 2 * Pow2(k - 1)
  }

  /** static_cast<int>(std::sqrt(n)): the integer square root. */
  function ISqrt(n: nat): (r: nat)
    ensures r * r <= n < (r + 1) * (r + 1)
  {
    if n == 0 then 0
    else
      var s := ISqrt(n - 1);
      if (s + 1) * (s + 1) <= n then
        assert (s + 2) * (s + 2) == (s + 1) * (s + 1) + 2 * s + 3;
        s + 1
      else s
  }

  /** static_cast<int>(std::log2(n)) for n >= 1: the integer base-2 logarithm. */
  function ILog2(n: nat): (r: nat)
    requires n >= 1
    ensures Pow2(r) <= n < Pow2(r + 1)
  {
    if n == 1 then 0 else 1 + ILog2(n / 2)
  }

  /**
   * getNumFeaturesToConsider: nFeatures for "all", the integer base-2
   * logarithm for "log2" and the integer square root for "auto", "sqrt"
   * and every other string, never below 1.
   */
  function NumFeaturesToConsider(maxFeatures: string, n: nat): (r: int)
    ensures n >= 1 ==> 1 <= r <= n
    ensures maxFeatures == "all" ==> r == n
    ensures maxFeatures == "log2" ==> (n >= 2 ==> Pow2(r) <= n < Pow2(r + 1)) && (n <= 1 ==> r == 1)
    ensures maxFeatures != "all" && maxFeatures != "log2" ==>
              (n >= 1 ==> r * r <= n < (r + 1) * (r + 1)) && (n == 0 ==> r == 1)
  {
    if maxFeatures == "log2" then
      if n == 0 then 1
      else
        var l := ILog2(n);
        assert l <= n by { Pow2Above(l); }
        if l >= 1 then l else 1
    else if maxFeatures == "all" then n
    else
      var s := ISqrt(n);
      assert s <= n by { SquareBelow(s, n); }
      if s >= 1 then s else 1
  }

  lemma SquareBelow(s: nat, n: nat)
    requires s * s <= n
    ensures s <= n
  {
    if s >= 1 {
      assert s <= s * s;
    }
  }

  lemma {:induction false} Pow2Above(k: nat)
    ensures k < Pow2(k)
  {
    if k > 0 {
      Pow2Above(k - 1);
    }
  }

  // ---------------------------------------------------------------------
  // Feature importance accumulation (see the finding in README.md)
  // ---------------------------------------------------------------------

  /**
   * The accumulation as written: tree.featureImportance is a vector of int,
   * so `featureImportance[f] += size * impurityDecrease` adds in double and
   * truncates the sum back to int.
   */
  function AccumulateAsWritten(acc: int, size: nat, decrease: real): (r: int)
    ensures acc as real + size as real * decrease >= 0.0 ==>
              r as real <= acc as real + size as real * decrease < r as real + 1.0
  {
    Truncate(acc as real + size as real * decrease)
  }

  /** As written, a split whose weighted decrease is below 1 adds nothing. */
  lemma SmallGainsVanish(acc: int, size: nat, decrease: real)
    requires acc >= 0 && 0.0 <= size as real * decrease < 1.0
    ensures AccumulateAsWritten(acc, size, decrease) == acc
  {
  }

  /**
   * Two samples with targets 0 and 1, split on feature 0 of two: the split
   * reduces the variance by 0.25, so it should carry all of the importance;
   * as written its 2 * 0.25 truncates to 0, no importance is left, and both
   * features get the fallback share 1/2.
   */
  lemma TruncationLosesTheOnlySplit()
    ensures CutScore([0.0, 1.0], [0, 1], [0], [1]) == 0.25
    ensures AccumulateAsWritten(0, 2, 0.25) == 0
    ensures ImportanceScores(["x0", "x1"], [0.0, 0.0], 2) == map["x0" := 0.5, "x1" := 0.5]
    ensures ImportanceScores(["x0", "x1"], [2.0 * 0.25, 0.0], 2) == map["x0" := 1.0, "x1" := 0.0]
  {
    var y := [0.0, 1.0];
    assert Sum(y, [0, 1]) == 1.0 by { assert [0, 1][..1] == [0]; assert [0][..0] == []; }
    assert Mean(y, [0, 1]) == 0.5;
    assert SquaredDeviation(y, [0, 1], 0.5) == 0.5 by { assert [0, 1][..1] == [0]; assert [0][..0] == []; }
    assert Variance(y, [0, 1]) == 0.25;
    assert Variance(y, [0]) == 0.0 by { assert [0][..0] == []; }
    assert Variance(y, [1]) == 0.0 by { assert [1][..0] == []; }
    var names := ["x0", "x1"];
    var zero := map name | name in names :: 0.0;
    assert zero == map["x0" := 0.0, "x1" := 0.0];
    var even := Shares([0.0, 0.0], 2);
    assert even == [0.5, 0.5];
    assert Assigned(zero, names, even, 1) == zero["x0" := 0.5];
    assert Assigned(zero, names, even, 2) == zero["x0" := 0.5]["x1" := 0.5];
    var split := Shares([2.0 * 0.25, 0.0], 2);
    assert split == [1.0, 0.0];
    assert Assigned(zero, names, split, 1) == zero["x0" := 1.0];
    assert Assigned(zero, names, split, 2) == zero["x0" := 1.0]["x1" := 0.0];
  }

  // ---------------------------------------------------------------------
  // Averaging
  // ---------------------------------------------------------------------

  /** predictions / nEstimators; the source's 0/0 (no trees) yields NaN, which
      reals cannot represent, and is read as 0 here. */
  function Average(sum: real, n: int): real
  {
    if n == 0 then 0.0 else sum / n as real
  }

  // ---------------------------------------------------------------------
  // The forest
  // ---------------------------------------------------------------------

  /** The samples a tree is grown from: m draws from 0..m-1 with
      bootstrapping, otherwise every sample once, in order. */
  ghost predicate SampledFrom(samples: seq<nat>, m: nat, bootstrap: bool)
  {
    |samples| == m
    && (bootstrap ==> InRange(samples, m))
    && (!bootstrap ==> samples == Iota(m))
  }

  /** Every tree is grown by the rules from its layout's samples. */
  ghost predicate AllGrown(grown: seq<Tree>, lays: seq<Layout>, X: seq<seq<real>>, y: seq<real>, rules: Rules, n: nat, m: nat,
                           bootstrap: bool)
    requires |lays| == |grown|
    decreases |grown|
  {
    grown == []
    || (AllGrown(grown[..|grown| - 1], lays[..|lays| - 1], X, y, rules, n, m, bootstrap)
        && GrownTree(grown[|grown| - 1], lays[|lays| - 1], X, y, rules, n)
        && SampledFrom(lays[|lays| - 1].samples, m, bootstrap))
  }

  lemma {:induction false} AllGrownAt(grown: seq<Tree>, lays: seq<Layout>, X: seq<seq<real>>, y: seq<real>, rules: Rules,
                                      n: nat, m: nat, bootstrap: bool, t: nat)
    requires |lays| == |grown| && AllGrown(grown, lays, X, y, rules, n, m, bootstrap) && t < |grown|
    ensures GrownTree(grown[t], lays[t], X, y, rules, n) && SampledFrom(lays[t].samples, m, bootstrap)
    decreases |grown|
  {
    if t < |grown| - 1 {
      AllGrownAt(grown[..|grown| - 1], lays[..|lays| - 1], X, y, rules, n, m, bootstrap, t);
    }
  }

  class RandomForest {
    var nEstimators: int
    var maxDepth: int
    var minSamplesSplit: int
    var minSamplesLeaf: int
    var maxFeatures: string
    var bootstrap: bool

    var isFitted: bool
    var nSamples: nat
    var nFeatures: nat
    var names: seq<string>
    var target: string
    var trees: seq<Tree>
    var importanceScores: map<string, real>
    /** How many random operations the forest's own engine has made. */
    var rng: nat

    /** The samples each tree was grown from, node by node, and the data of
        the last successful fit. */
    ghost var layouts: seq<Layout>
    ghost var trainX: seq<seq<real>>
    ghost var trainY: seq<real>
    ghost var trainRules: Rules

    ghost predicate Valid()
      reads this
    {
      |layouts| == |trees| && Shapes(trees, nFeatures)
    }

    /** The default constructor: 100 trees, depth 10, split 2, leaf 1,
        "auto" features, bootstrapping. */
    constructor ()
      ensures Valid() && !isFitted && trees == []
      ensures nEstimators == 100 && maxDepth == 10 && minSamplesSplit == 2 && minSamplesLeaf == 1
      ensures maxFeatures == "auto" && bootstrap
    {
      nEstimators, maxDepth, minSamplesSplit, minSamplesLeaf := 100, 10, 2, 1;
      maxFeatures, bootstrap := "auto", true;
      isFitted, nSamples, nFeatures := false, 0, 0;
      names, target, trees, importanceScores, rng := [], "", [], map[], 0;
      layouts, trainX, trainY, trainRules := [], [], [], Rules(0, 0, 0, true, RandomSubset(0, 0));
    }

    constructor WithParameters(nEstimators: int, maxDepth: int, minSamplesSplit: int, minSamplesLeaf: int,
                               maxFeatures: string, bootstrap: bool)
      ensures Valid() && !isFitted && trees == []
      ensures this.nEstimators == nEstimators && this.maxDepth == maxDepth
      ensures this.minSamplesSplit == minSamplesSplit && this.minSamplesLeaf == minSamplesLeaf
      ensures this.maxFeatures == maxFeatures && this.bootstrap == bootstrap
    {
      this.nEstimators, this.maxDepth := nEstimators, maxDepth;
      this.minSamplesSplit, this.minSamplesLeaf := minSamplesSplit, minSamplesLeaf;
      this.maxFeatures, this.bootstrap := maxFeatures, bootstrap;
      isFitted, nSamples, nFeatures := false, 0, 0;
      names, target, trees, importanceScores, rng := [], "", [], map[], 0;
      layouts, trainX, trainY, trainRules := [], [], [], Rules(0, 0, 0, true, RandomSubset(0, 0));
    }

    /** The rules buildTree grows by: the forest's depth and sample limits,
        the variance floor, and numFeaturesToConsider random features per
        node. */
    function GrowRules(): Rules
      reads this`maxDepth, this`minSamplesSplit, this`minSamplesLeaf, this`nFeatures, this`maxFeatures
    {
      Rules(maxDepth, minSamplesSplit, minSamplesLeaf, true, RandomSubset(nFeatures, NumFeaturesToConsider(maxFeatures, nFeatures)))
    }

    /** The sample indices of one tree (fit, lines 75-87). */
    method SampleIndices(e: Engine, from: nat) returns (idx: seq<nat>, next: nat)
      requires Sound(e)
      ensures SampledFrom(idx, nSamples, bootstrap)
      ensures bootstrap ==> next == from + nSamples && forall j :: 0 <= j < nSamples ==> idx[j] == e.draw(from + j, nSamples)
      ensures !bootstrap ==> next == from
    {
      if bootstrap {
        idx := [];
        var j := 0;
        while j < nSamples
          invariant 0 <= j <= nSamples && |idx| == j && InRange(idx, nSamples)
          invariant forall i :: 0 <= i < j ==> idx[i] == e.draw(from + i, nSamples)
        {
          idx := idx + [e.draw(from + j, nSamples)];
          j := j + 1;
        }
        next := from + nSamples;
      } else {
        idx := [];
        var j := 0;
        while j < nSamples
          invariant 0 <= j <= nSamples && |idx| == j
          invariant forall i :: 0 <= i < j ==> idx[i] == i
        {
          idx := idx + [j];
          j := j + 1;
        }
        next := from;
      }
    }

    /**
     * buildTree: a leaf holding the mean target when a stop rule holds or
     * the variance is below 1e-6; otherwise the best split over the first
     * numFeaturesToConsider features of a shuffled 0..nFeatures-1, a leaf
     * again when there is none or a side is too small, and otherwise a
     * split node whose feature gains size * impurityDecrease of importance,
     * with its left subtree built before its right one.
     */
    method BuildTree(X: seq<seq<real>>, y: seq<real>, samples: seq<nat>, depth: int,
                     importance: seq<real>, e: Engine, from: nat)
      returns (node: Node, newImportance: seq<real>, next: nat, ghost lay: Layout)
      requires Shaped(X, nFeatures) && InRange(samples, |X|) && InRange(samples, |y|)
      requires |importance| == nFeatures && Sound(e)
      ensures lay.samples == samples
      ensures Grown(node, lay, X, y, depth, GrowRules()) && FeaturesBelow(node, nFeatures)
      ensures |newImportance| == nFeatures
      ensures forall g :: 0 <= g < nFeatures ==> newImportance[g] == importance[g] + Gain(node, lay, y, g)
      ensures next >= from
      decreases maxDepth - depth
    {
      if depth >= maxDepth || |samples| < minSamplesSplit || |samples| <= minSamplesLeaf {
        node, lay := MakeLeaf(X, y, samples, depth, []);
        return node, importance, from, lay;
      }
      var nodeVariance := CalculateVariance(y, samples);
      if nodeVariance < VarianceFloor {
        node, lay := MakeLeaf(X, y, samples, depth, []);
        return node, importance, from, lay;
      }
      var features := ChooseFeatures(e, from);
      ReadableFeatures(X, samples, features, nFeatures);
      var feature, split, score, decrease, left, right := FindBestSplit(X, y, samples, features, minSamplesLeaf);
      if feature == -1 || left == [] || right == [] || |left| < minSamplesLeaf || |right| < minSamplesLeaf {
        UnusableCutLeaf(X, y, samples, features, depth, GrowRules(), Best(feature, split, score, left, right));
        node, lay := MakeLeaf(X, y, samples, depth, features);
        return node, importance, from + 1, lay;
      }
      FeatureInRange(features, feature);
      var imp := importance[feature := importance[feature] + |samples| as real * decrease];
      PartsInRange(samples, left, right, |y|);
      PartsInRange(samples, left, right, |X|);
      var l, impL, nextL, layL := BuildTree(X, y, left, depth + 1, imp, e, from + 1);
      var r, impR, nextR, layR := BuildTree(X, y, right, depth + 1, impL, e, nextL);
      node := Split(feature, split, l, r);
      lay := SplitAt(samples, features, layL, layR);
      SplitGrown(X, y, samples, features, depth, feature, split, decrease, l, r, layL, layR);
      GainOfSplit(y, samples, features, feature, split, l, r, layL, layR, decrease, importance, imp, impL, impR, nFeatures);
      return node, impR, nextR, lay;
    }

    /** A leaf holding the mean of the samples' targets, made for one of
        the reasons buildTree has for a leaf. */
    method MakeLeaf(ghost X: seq<seq<real>>, y: seq<real>, samples: seq<nat>, depth: int, ghost features: seq<nat>)
      returns (node: Node, ghost lay: Layout)
      requires InRange(samples, |y|) && LeafReason(X, y, samples, features, depth, GrowRules())
      ensures lay.samples == samples && node.Leaf? && node.output == Mean(y, samples)
      ensures Grown(node, lay, X, y, depth, GrowRules()) && FeaturesBelow(node, nFeatures)
    {
      var m := CalculateMean(y, samples);
      node, lay := Leaf(m), LeafAt(samples, features);
    }

    /** The features considered at a node: the first numFeaturesToConsider of
        a shuffled 0..nFeatures-1 (all of them when there are fewer). */
    method ChooseFeatures(e: Engine, from: nat) returns (features: seq<nat>)
      requires Sound(e)
      ensures Picked(features, RandomSubset(nFeatures, NumFeaturesToConsider(maxFeatures, nFeatures)))
      ensures var k := NumFeaturesToConsider(maxFeatures, nFeatures);
        features == e.shuffle(from, nFeatures)[..if k <= nFeatures then k else nFeatures]
    {
      var k := NumFeaturesToConsider(maxFeatures, nFeatures);
      var order := e.shuffle(from, nFeatures);
      assert IsPermutation(order, nFeatures);
      features := order[..if k <= |order| then k else |order|];
    }

    lemma FeatureInRange(features: seq<nat>, feature: int)
      requires 0 <= feature && feature as nat in features
      requires forall i :: 0 <= i < |features| ==> features[i] < nFeatures
      ensures feature < nFeatures
    {
    }

    /** The facts FindBestSplit and the recursive calls establish make the
        split node a grown tree. */
    lemma SplitGrown(X: seq<seq<real>>, y: seq<real>, samples: seq<nat>, features: seq<nat>, depth: int, feature: nat,
                     split: real, decrease: real, l: Node, r: Node, layL: Layout, layR: Layout)
      requires !Stops(GrowRules(), depth, samples) && Variance(y, samples) >= VarianceFloor
      requires samples != [] && Picked(features, GrowRules().pick)
      requires BestCut(X, y, samples, features, minSamplesLeaf) == Best(feature, split, decrease, layL.samples, layR.samples)
      requires multiset(layL.samples + layR.samples) == multiset(samples)
      requires forall k :: 0 <= k < |layL.samples| ==> Value(X, layL.samples[k], feature) < split
      requires forall k :: 0 <= k < |layR.samples| ==> Value(X, layR.samples[k], feature) > split
      requires BigEnough(GrowRules(), layL.samples, layR.samples)
      requires Grown(l, layL, X, y, depth + 1, GrowRules()) && Grown(r, layR, X, y, depth + 1, GrowRules())
      ensures Grown(Split(feature, split, l, r), SplitAt(samples, features, layL, layR), X, y, depth, GrowRules())
    {
    }

    /** The forest holds trees grown by the rules from samples of the
        training data, one layout per tree. */
    ghost predicate Trained()
      reads this
    {
      |layouts| == |trees| && |trainX| == nSamples && |trainY| == nSamples && Shaped(trainX, nFeatures)
      && AllGrown(trees, layouts, trainX, trainY, trainRules, nFeatures, nSamples, bootstrap)
    }

    /** The loop of fit that grows nEstimators trees (none when it is not
        positive), each on its own sample list with an importance vector
        starting at zero. */
    method GrowTrees(X: seq<seq<real>>, y: seq<real>, e: Engine, from: nat)
      returns (grown: seq<Tree>, ghost lays: seq<Layout>, next: nat)
      requires Shaped(X, nFeatures) && |X| == nSamples && |y| == nSamples && Sound(e)
      ensures |grown| == |lays| == (if nEstimators > 0 then nEstimators else 0)
      ensures AllGrown(grown, lays, X, y, GrowRules(), nFeatures, nSamples, bootstrap)
      ensures next >= from
    {
      grown, lays, next := [], [], from;
      var i := 0;
      while i < nEstimators
        invariant 0 <= i && (i == 0 || i <= nEstimators) && |grown| == |lays| == i && next >= from
        invariant AllGrown(grown, lays, X, y, GrowRules(), nFeatures, nSamples, bootstrap)
      {
        var samples, afterDraws := SampleIndices(e, next);
        var zero := seq(nFeatures, _ => 0.0);
        var root, importance, afterTree, lay := BuildTree(X, y, samples, 0, zero, e, afterDraws);
        assert (grown + [Tree(root, importance)])[..|grown|] == grown;
        assert (lays + [lay])[..|lays|] == lays;
        grown := grown + [Tree(root, importance)];
        lays := lays + [lay];
        next := afterTree;
        i := i + 1;
      }
    }

    /**
     * fit: false, with nothing changed, when X and y differ in their number
     * of rows; otherwise records the data's shape and names, grows the trees,
     * computes the feature importance and marks the forest fitted.
     */
    method Fit(X: seq<seq<real>>, cols: nat, y: seq<real>, variableNames: seq<string>, targetName: string, e: Engine)
      returns (ok: bool)
      requires Shaped(X, cols) && Sound(e) && Valid()
      modifies this
      ensures Valid()
      ensures ok <==> |X| == |y|
      ensures !ok ==> unchanged(this)
      ensures ok ==> isFitted && Trained() && trainX == X && trainY == y
      ensures ok ==> trainRules == Rules(maxDepth, minSamplesSplit, minSamplesLeaf, true,
                                         RandomSubset(cols, NumFeaturesToConsider(maxFeatures, cols)))
      ensures ok ==> nSamples == |X| && nFeatures == cols
      ensures ok ==> names == InputNames(variableNames, cols) && target == TargetName(targetName)
      ensures ok ==> |trees| == (if nEstimators > 0 then nEstimators else 0)
      ensures ok ==> importanceScores == ImportanceScores(names, Totals(ImportanceVectors(trees), nFeatures), nFeatures)
      ensures ok ==> rng >= old(rng)
      ensures nEstimators == old(nEstimators) && maxDepth == old(maxDepth) && maxFeatures == old(maxFeatures)
      ensures minSamplesSplit == old(minSamplesSplit) && minSamplesLeaf == old(minSamplesLeaf) && bootstrap == old(bootstrap)
    {
      if |X| != |y| {
        return false;
      }
      SetShape(|X|, cols);
      var newNames := InputNames(variableNames, cols);
      ghost var rules := GrowRules();
      var grown, lays, scores, next := Train(X, y, newNames, e, rng, rules);
      Record(newNames, TargetName(targetName), grown, lays, X, y, rules, next, scores);
      return true;
    }

    /** The shape of the training data, recorded before the trees are grown. */
    method SetShape(m: nat, n: nat)
      modifies this
      ensures nSamples == m && nFeatures == n
      ensures nEstimators == old(nEstimators) && maxDepth == old(maxDepth) && maxFeatures == old(maxFeatures)
      ensures minSamplesSplit == old(minSamplesSplit) && minSamplesLeaf == old(minSamplesLeaf) && bootstrap == old(bootstrap)
      ensures rng == old(rng)
    {
      nSamples, nFeatures := m, n;
    }

    /** The fitted state, recorded once the trees are grown. */
    method Record(newNames: seq<string>, newTarget: string, grown: seq<Tree>, ghost lays: seq<Layout>,
                  ghost X: seq<seq<real>>, ghost y: seq<real>, ghost rules: Rules, next: nat, scores: map<string, real>)
      modifies this
      ensures names == newNames && target == newTarget && trees == grown && layouts == lays
      ensures trainX == X && trainY == y && trainRules == rules && rng == next && importanceScores == scores && isFitted
      ensures nSamples == old(nSamples) && nFeatures == old(nFeatures)
      ensures nEstimators == old(nEstimators) && maxDepth == old(maxDepth) && maxFeatures == old(maxFeatures)
      ensures minSamplesSplit == old(minSamplesSplit) && minSamplesLeaf == old(minSamplesLeaf) && bootstrap == old(bootstrap)
    {
      RecordTrees(grown, lays, X, y, rules);
      names, target, rng, importanceScores, isFitted := newNames, newTarget, next, scores, true;
    }

    /** The trees and what they were grown from. */
    method RecordTrees(grown: seq<Tree>, ghost lays: seq<Layout>, ghost X: seq<seq<real>>, ghost y: seq<real>, ghost rules: Rules)
      modifies this
      ensures trees == grown && layouts == lays && trainX == X && trainY == y && trainRules == rules
      ensures nSamples == old(nSamples) && nFeatures == old(nFeatures)
      ensures nEstimators == old(nEstimators) && maxDepth == old(maxDepth) && maxFeatures == old(maxFeatures)
      ensures minSamplesSplit == old(minSamplesSplit) && minSamplesLeaf == old(minSamplesLeaf) && bootstrap == old(bootstrap)
    {
      trees, layouts := grown, lays;
      trainX, trainY, trainRules := X, y, rules;
    }

    /** The trees and the importance map fit computes from the data. */
    method Train(X: seq<seq<real>>, y: seq<real>, newNames: seq<string>, e: Engine, from: nat, ghost rules: Rules)
      returns (grown: seq<Tree>, ghost lays: seq<Layout>, scores: map<string, real>, next: nat)
      requires Shaped(X, nFeatures) && |X| == nSamples && |y| == nSamples && Sound(e) && rules == GrowRules()
      ensures |grown| == |lays| == (if nEstimators > 0 then nEstimators else 0)
      ensures AllGrown(grown, lays, X, y, rules, nFeatures, nSamples, bootstrap) && Shapes(grown, nFeatures)
      ensures scores == ImportanceScores(newNames, Totals(ImportanceVectors(grown), nFeatures), nFeatures)
      ensures next >= from
    {
      grown, lays, next := GrowTrees(X, y, e, from);
      assert Shapes(grown, nFeatures) by {
        forall t | 0 <= t < |grown| ensures FeaturesBelow(grown[t].root, nFeatures) && |grown[t].importance| == nFeatures {
          AllGrownAt(grown, lays, X, y, GrowRules(), nFeatures, nSamples, bootstrap, t);
        }
      }
      scores := CalculateFeatureImportance(newNames, ImportanceVectors(grown), nFeatures);
    }

    /** The per-row sums of the trees' predictions (the two loops of predict). */
    method SumPredictions(X: seq<seq<real>>) returns (sums: seq<real>)
      requires Valid() && Shaped(X, nFeatures)
      ensures |sums| == |X| && forall i :: 0 <= i < |X| ==> sums[i] == TreeSum(trees, X[i])
    {
      sums := seq(|X|, _ => 0.0);
      var t := 0;
      while t < |trees|
        invariant 0 <= t <= |trees| && |sums| == |X|
        invariant forall i :: 0 <= i < |X| ==> sums[i] == TreeSum(trees[..t], X[i])
      {
        assert trees[..t + 1][..t] == trees[..t];
        sums := AddTree(sums, X, trees[t].root);
        t := t + 1;
      }
      assert trees[..t] == trees;
    }

    /** Adds one tree's prediction for every row. */
    method AddTree(sums: seq<real>, X: seq<seq<real>>, root: Node) returns (r: seq<real>)
      requires |sums| == |X| && Shaped(X, nFeatures) && FeaturesBelow(root, nFeatures)
      ensures |r| == |X| && forall i :: 0 <= i < |X| ==> r[i] == sums[i] + PredictTree(X[i], root)
    {
      r := sums;
      var i := 0;
      while i < |X|
        invariant 0 <= i <= |X| && |r| == |X|
        invariant forall j :: 0 <= j < i ==> r[j] == sums[j] + PredictTree(X[j], root)
        invariant forall j :: i <= j < |X| ==> r[j] == sums[j]
      {
        r := r[i := r[i] + PredictTree(X[i], root)];
        i := i + 1;
      }
    }

    /**
     * predict: a runtime_error before fit, an invalid_argument when X does
     * not have the training number of columns, otherwise for every row the
     * sum of the trees' predictions divided by nEstimators.
     */
    method Predict(X: seq<seq<real>>, cols: nat) returns (r: Result<seq<real>>)
      requires Valid() && Shaped(X, cols)
      ensures !isFitted ==> r == Err(RuntimeError(NotFitted))
      ensures isFitted && cols != nFeatures ==> r == Err(InvalidArgument(FeatureMismatch(cols, nFeatures)))
      ensures isFitted && cols == nFeatures ==>
                r.Ok? && |r.value| == |X| && forall i :: 0 <= i < |X| ==> r.value[i] == Average(TreeSum(trees, X[i]), nEstimators)
    {
      if !isFitted {
        return Err(RuntimeError(NotFitted));
      }
      if cols != nFeatures {
        return Err(InvalidArgument(FeatureMismatch(cols, nFeatures)));
      }
      var sums := SumPredictions(X);
      var n := nEstimators;
      var predictions := seq(|X|, i requires 0 <= i < |X| => Average(sums[i], n));
      return Ok(predictions);
    }

    /** getFeatureImportance: the normalised map once fitted. */
    method GetFeatureImportance() returns (r: Result<map<string, real>>)
      ensures !isFitted ==> r == Err(RuntimeError(NotFitted))
      ensures isFitted ==> r == Ok(importanceScores)
    {
      if !isFitted {
        return Err(RuntimeError(NotFitted));
      }
      return Ok(importanceScores);
    }

    /** getParameters: the hyperparameters as doubles (maxFeatures is not reported). */
    function Parameters(): (r: map<string, real>)
      reads this
      ensures r.Keys == {"n_estimators", "max_depth", "min_samples_split", "min_samples_leaf", "bootstrap"}
      ensures r["n_estimators"] == nEstimators as real && r["max_depth"] == maxDepth as real
      ensures r["bootstrap"] == if bootstrap then 1.0 else 0.0
    {
      map["n_estimators" := nEstimators as real, "max_depth" := maxDepth as real,
          "min_samples_split" := minSamplesSplit as real, "min_samples_leaf" := minSamplesLeaf as real,
          "bootstrap" := if bootstrap then 1.0 else 0.0]
    }

    /** getDescription. */
    function Description(): (r: string)
      reads this
      ensures r == "Random Forest Regression with " + IntToString(nEstimators) + " trees."
    {
      "Random Forest Regression with " + IntToString(nEstimators) + " trees."
    }
  }

  /** A tree grown at the root from a non-empty list of training samples,
      splitting only on features below n. */
  ghost predicate GrownFromSome(root: Node, lay: Layout, X: seq<seq<real>>, y: seq<real>, rules: Rules, n: nat)
  {
    Grown(root, lay, X, y, 0, rules) && FeaturesBelow(root, n) && lay.samples != [] && InRange(lay.samples, |y|)
  }

  /**
   * Predictions stay within the training targets: when every target lies
   * in [lo, hi] and the forest holds nEstimators >= 1 trees grown from
   * non-empty samples, the averaged prediction for any input of the
   * training width lies in [lo, hi] too.
   */
  lemma ForestPredictionBetween(trees: seq<Tree>, lays: seq<Layout>, X: seq<seq<real>>, y: seq<real>, rules: Rules,
                                n: nat, x: seq<real>, lo: real, hi: real)
    requires |lays| == |trees| >= 1 && |x| == n
    requires forall t :: 0 <= t < |trees| ==> GrownFromSome(trees[t].root, lays[t], X, y, rules, n)
    requires forall t :: 0 <= t < |trees| ==> FeaturesBelow(trees[t].root, n)
    requires forall k :: 0 <= k < |y| ==> lo <= y[k] <= hi
    ensures lo <= Average(TreeSum(trees, x), |trees|) <= hi
  {
    TreesPredictBetween(trees, lays, X, y, rules, n, x, lo, hi);
    var sum, m := TreeSum(trees, x), |trees|;
    TreeSumBetween(trees, x, lo, hi);
    assert Repeated(m, lo) <= sum <= Repeated(m, hi);
    RepeatedIsProduct(m, lo);
    RepeatedIsProduct(m, hi);
    AverageBetween(sum, m, lo, hi);
  }

  lemma TreesPredictBetween(trees: seq<Tree>, lays: seq<Layout>, X: seq<seq<real>>, y: seq<real>, rules: Rules,
                            n: nat, x: seq<real>, lo: real, hi: real)
    requires |lays| == |trees| && |x| == n
    requires forall t :: 0 <= t < |trees| ==> GrownFromSome(trees[t].root, lays[t], X, y, rules, n)
    requires forall k :: 0 <= k < |y| ==> lo <= y[k] <= hi
    ensures forall t :: 0 <= t < |trees| ==> FeaturesBelow(trees[t].root, |x|) && lo <= PredictTree(x, trees[t].root) <= hi
  {
    forall t | 0 <= t < |trees| ensures FeaturesBelow(trees[t].root, |x|) && lo <= PredictTree(x, trees[t].root) <= hi {
      assert GrownFromSome(trees[t].root, lays[t], X, y, rules, n);
      TargetsOfSamples(y, lays[t].samples, lo, hi);
      TreePredictionBetween(trees[t].root, lays[t], X, y, rules, x, lo, hi);
    }
  }

  /** One grown tree predicts within any bounds of the targets of its own
      samples; targets of other samples are unconstrained. */
  lemma TreePredictionBetween(root: Node, lay: Layout, X: seq<seq<real>>, y: seq<real>, rules: Rules,
                              x: seq<real>, lo: real, hi: real)
    requires Grown(root, lay, X, y, 0, rules) && FeaturesBelow(root, |x|)
    requires lay.samples != [] && InRange(lay.samples, |y|)
    requires forall k :: 0 <= k < |lay.samples| ==> lo <= y[lay.samples[k]] <= hi
    ensures lo <= PredictTree(x, root) <= hi
  {
    assert TargetsBetween(y, lay.samples, lo, hi);
    OutputsBetween(root, lay, X, y, 0, rules, lo, hi);
    OutputBetween(root, x, lo, hi);
  }

  lemma AverageBetween(sum: real, n: nat, lo: real, hi: real)
    requires n >= 1 && n as real * lo <= sum <= n as real * hi
    ensures lo <= Average(sum, n) <= hi
  {
    assert sum / n as real >= lo by {
      assert (sum / n as real) * n as real == sum;
    }
    assert sum / n as real <= hi by {
      assert (sum / n as real) * n as real == sum;
    }
  }

  /** The partner of fit and predict: once fitted with at least one sample
      and nEstimators >= 1, every prediction lies between the smallest and
      largest training target. */
  lemma FittedPredictionsBetween(forest: RandomForest, x: seq<real>, lo: real, hi: real)
    requires forest.Valid() && forest.Trained() && forest.nSamples >= 1 && forest.nEstimators == |forest.trees| >= 1
    requires |x| == forest.nFeatures
    requires forall k :: 0 <= k < |forest.trainY| ==> lo <= forest.trainY[k] <= hi
    ensures lo <= Average(TreeSum(forest.trees, x), forest.nEstimators) <= hi
  {
    forall t | 0 <= t < |forest.trees|
      ensures GrownFromSome(forest.trees[t].root, forest.layouts[t], forest.trainX, forest.trainY, forest.trainRules, forest.nFeatures)
      ensures FeaturesBelow(forest.trees[t].root, forest.nFeatures)
    {
      AllGrownAt(forest.trees, forest.layouts, forest.trainX, forest.trainY, forest.trainRules, forest.nFeatures,
                 forest.nSamples, forest.bootstrap, t);
    }
    ForestPredictionBetween(forest.trees, forest.layouts, forest.trainX, forest.trainY, forest.trainRules,
                            forest.nFeatures, x, lo, hi);
  }
}
