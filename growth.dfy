/**
 * How the random forest and gradient boosting grow a regression tree
 * (RandomForest::buildTree, GradientBoosting::buildTree): the stop rules,
 * the partition of a node's samples between its children, and what the
 * finished tree promises about depth, leaves and routing of the samples it
 * was grown from.
 */
module Growth {
  import opened Trees
  import opened ModelCommon
  import opened Strings

  /** The samples each node of a grown tree was built from, and the
      features its split search considered (none where no search ran). */
  datatype Layout =
    | LeafAt(samples: seq<nat>, features: seq<nat>)
    | SplitAt(samples: seq<nat>, features: seq<nat>, left: Layout, right: Layout)

  /** The features buildTree hands to findBestSplit: gradient boosting
      passes every feature 0..n-1 in order; the random forest passes the
      first k of a shuffled 0..n-1 (all of them when n < k). */
  datatype Pick =
    | EveryFeature(n: nat)
    | RandomSubset(n: nat, k: int)

  predicate Picked(features: seq<nat>, pick: Pick)
  {
    match pick
    case EveryFeature(n) => features == Iota(n)
    case RandomSubset(n, k) =>
      Distinct(features) && (forall i :: 0 <= i < |features| ==> features[i] < n)
      && |features| == (if k <= n then k else n)
  }

  /** The hyperparameters buildTree consults; the random forest also turns
      a node with (almost) no variance into a leaf. */
  datatype Rules = Rules(maxDepth: int, minSplit: int, minLeaf: int, checkVariance: bool, pick: Pick)

  /** The variance below which the random forest stops splitting (1e-6). */
  const VarianceFloor: real := 0.000001

  /** The stop rules checked first: depth reached, too few samples to split,
      or no more samples than a leaf needs. */
  predicate Stops(rules: Rules, depth: int, samples: seq<nat>)
  {
    depth >= rules.maxDepth || |samples| < rules.minSplit || |samples| <= rules.minLeaf
  }

  /** L and R split `samples` between them: feature f at most t on the left,
      above t on the right. */
  ghost predicate Partitions(X: seq<seq<real>>, samples: seq<nat>, f: nat, t: real, L: seq<nat>, R: seq<nat>)
  {
    multiset(L) + multiset(R) == multiset(samples)
    && (forall k :: 0 <= k < |L| ==> Value(X, L[k], f) <= t)
    && (forall k :: 0 <= k < |R| ==> Value(X, R[k], f) > t)
  }

  /** A sample of a partitioned node lies on the side its value selects. */
  lemma PartitionSide(X: seq<seq<real>>, samples: seq<nat>, f: nat, t: real, L: seq<nat>, R: seq<nat>, s: nat)
    requires Partitions(X, samples, f, t, L, R) && s in samples
    ensures Value(X, s, f) <= t ==> s in L
    ensures Value(X, s, f) > t ==> s in R
  {
    assert s in multiset(L) + multiset(R);
    if s in L {
      var k :| 0 <= k < |L| && L[k] == s;
    } else {
      var k :| 0 <= k < |R| && R[k] == s;
    }
  }

  /** The children of a split are both non-empty and hold at least minLeaf
      samples each. */
  ghost predicate BigEnough(rules: Rules, L: seq<nat>, R: seq<nat>)
  {
    L != [] && R != [] && |L| >= rules.minLeaf && |R| >= rules.minLeaf
  }

  /** buildTree's test on what findBestSplit reports: no feature, or a
      side that is empty or holds fewer than minLeaf samples. */
  predicate Unusable(b: Best, minLeaf: int)
  {
    b.feature == -1 || b.left == [] || b.right == [] || |b.left| < minLeaf || |b.right| < minLeaf
  }

  /**
   * Why buildTree makes a leaf at `depth` of `samples`: a stop rule holds,
   * there are no samples, the random forest finds the variance below the
   * floor, or the best cut over the features picked for the search is
   * unusable.
   */
  ghost predicate LeafReason(X: seq<seq<real>>, y: seq<real>, samples: seq<nat>, features: seq<nat>, depth: int, rules: Rules)
  {
    Stops(rules, depth, samples) || samples == []
    || (rules.checkVariance && Variance(y, samples) < VarianceFloor)
    || (Picked(features, rules.pick) && Unusable(BestCut(X, y, samples, features, rules.minLeaf), rules.minLeaf))
  }

  /** A search whose result is unusable is a reason for a leaf. */
  lemma UnusableCutLeaf(X: seq<seq<real>>, y: seq<real>, samples: seq<nat>, features: seq<nat>, depth: int, rules: Rules,
                        b: Best)
    requires samples != [] && Picked(features, rules.pick)
    requires b == BestCut(X, y, samples, features, rules.minLeaf) && Unusable(b, rules.minLeaf)
    ensures LeafReason(X, y, samples, features, depth, rules)
  {
  }

  /**
   * `node` is what buildTree grows at `depth` from the samples of `lay`: a
   * leaf holding the mean target of its samples, made exactly when there
   * is a reason for one; otherwise a split on the feature and value of the
   * best cut over the picked features, whose sides are the children's
   * samples (a partition at the threshold into children big enough), and
   * whose children are grown the same way one level deeper.
   */
  ghost predicate Grown(node: Node, lay: Layout, X: seq<seq<real>>, y: seq<real>, depth: int, rules: Rules)
    decreases node
  {
    match node
    case Null => false
    case Leaf(v) =>
      lay.LeafAt? && v == Mean(y, lay.samples)
      && LeafReason(X, y, lay.samples, lay.features, depth, rules)
    case Split(f, t, l, r) =>
      lay.SplitAt? && !LeafReason(X, y, lay.samples, lay.features, depth, rules)
      && Picked(lay.features, rules.pick)
      && BestCut(X, y, lay.samples, lay.features, rules.minLeaf).feature == f
      && BestCut(X, y, lay.samples, lay.features, rules.minLeaf).split == t
      && BestCut(X, y, lay.samples, lay.features, rules.minLeaf).left == lay.left.samples
      && BestCut(X, y, lay.samples, lay.features, rules.minLeaf).right == lay.right.samples
      && Partitions(X, lay.samples, f, t, lay.left.samples, lay.right.samples)
      && BigEnough(rules, lay.left.samples, lay.right.samples)
      && Grown(l, lay.left, X, y, depth + 1, rules)
      && Grown(r, lay.right, X, y, depth + 1, rules)
  }

  /** No grown tree goes deeper than maxDepth. */
  lemma {:induction false} DepthBound(node: Node, lay: Layout, X: seq<seq<real>>, y: seq<real>, depth: int, rules: Rules)
    requires Grown(node, lay, X, y, depth, rules)
    ensures Depth(node) == 0 || depth + Depth(node) <= rules.maxDepth
  {
    match node
    case Split(f, t, l, r) =>
      DepthBound(l, lay.left, X, y, depth + 1, rules);
      DepthBound(r, lay.right, X, y, depth + 1, rules);
    case _ =>
  }

  /** The samples of the leaf that input x is routed to. */
  function Reached(node: Node, lay: Layout, x: seq<real>): seq<nat>
    decreases node
  {
    match node
    case Split(f, t, l, r) =>
      if lay.SplitAt? && f < |x| then
        if x[f] <= t then Reached(l, lay.left, x) else Reached(r, lay.right, x)
      else lay.samples
    case _ => lay.samples
  }

  /** Routing consistency: a sample the tree was grown from is routed to the
      leaf built from it, and the tree predicts that leaf's mean target. */
  lemma {:induction false} TrainingSampleRoutes(node: Node, lay: Layout, X: seq<seq<real>>, y: seq<real>,
                                                depth: int, rules: Rules, s: nat)
    requires Grown(node, lay, X, y, depth, rules)
    requires s in lay.samples && s < |X| && FeaturesBelow(node, |X[s]|)
    ensures s in Reached(node, lay, X[s])
    ensures PredictTree(X[s], node) == Mean(y, Reached(node, lay, X[s]))
  {
    match node
    case Leaf(v) =>
    case Split(f, t, l, r) =>
      assert s in multiset(lay.left.samples) + multiset(lay.right.samples);
      if s in lay.left.samples {
        var k :| 0 <= k < |lay.left.samples| && lay.left.samples[k] == s;
        assert X[s][f] <= t;
        TrainingSampleRoutes(l, lay.left, X, y, depth + 1, rules, s);
      } else {
        assert s in lay.right.samples;
        var k :| 0 <= k < |lay.right.samples| && lay.right.samples[k] == s;
        assert X[s][f] > t;
        TrainingSampleRoutes(r, lay.right, X, y, depth + 1, rules, s);
      }
  }

  /** The leaves' samples, left to right. */
  function LeafSamples(lay: Layout): seq<nat>
  {
    match lay
    case LeafAt(s, _) => s
    case SplitAt(_, _, l, r) => LeafSamples(l) + LeafSamples(r)
  }

  /** The leaves share out the root's samples: each sample ends in exactly
      as many leaves as it occurs in the root's list. */
  lemma {:induction false} LeavesPartition(node: Node, lay: Layout, X: seq<seq<real>>, y: seq<real>, depth: int, rules: Rules)
    requires Grown(node, lay, X, y, depth, rules)
    ensures multiset(LeafSamples(lay)) == multiset(lay.samples)
  {
    match node
    case Split(f, t, l, r) =>
      LeavesPartition(l, lay.left, X, y, depth + 1, rules);
      LeavesPartition(r, lay.right, X, y, depth + 1, rules);
    case _ =>
  }

  /**
   * What the tree adds to the importance of feature g: for each split on g,
   * its sample count times its variance reduction (the impurityDecrease
   * findBestSplit reports).
   */
  function Gain(node: Node, lay: Layout, y: seq<real>, g: nat): real
    decreases node
  {
    match node
    case Split(f, _, l, r) =>
      if lay.SplitAt? && lay.samples != [] then
        OwnGain(f, g, y, lay.samples, lay.left.samples, lay.right.samples)
        + Gain(l, lay.left, y, g) + Gain(r, lay.right, y, g)
      else 0.0
    case _ => 0.0
  }

  /** What a split on feature f adds to the importance of feature g. */
  function OwnGain(f: nat, g: nat, y: seq<real>, samples: seq<nat>, L: seq<nat>, R: seq<nat>): real
    requires samples != []
  {
    if f == g then |samples| as real * CutScore(y, samples, L, R) else 0.0
  }

  /** Importance threaded through a split: the node's own contribution,
      then the left subtree's, then the right subtree's, add up to the
      split tree's gain. */
  lemma GainOfSplit(y: seq<real>, samples: seq<nat>, fs: seq<nat>, f: nat, t: real, l: Node, r: Node, layL: Layout, layR: Layout,
                    decrease: real, before: seq<real>, mid: seq<real>, afterL: seq<real>, afterR: seq<real>, n: nat)
    requires samples != [] && decrease == CutScore(y, samples, layL.samples, layR.samples)
    requires |before| == n && f < n && mid == before[f := before[f] + |samples| as real * decrease]
    requires |afterL| == n && forall g :: 0 <= g < n ==> afterL[g] == mid[g] + Gain(l, layL, y, g)
    requires |afterR| == n && forall g :: 0 <= g < n ==> afterR[g] == afterL[g] + Gain(r, layR, y, g)
    ensures forall g :: 0 <= g < n ==> afterR[g] == before[g] + Gain(Split(f, t, l, r), SplitAt(samples, fs, layL, layR), y, g)
  {
    forall g | 0 <= g < n
      ensures afterR[g] == before[g] + Gain(Split(f, t, l, r), SplitAt(samples, fs, layL, layR), y, g)
    {
      var own := if f == g then |samples| as real * decrease else 0.0;
      assert mid[g] == before[g] + own;
      GainOfSplitAt(y, samples, fs, f, t, l, r, layL, layR, g, decrease, own);
    }
  }

  lemma GainOfSplitAt(y: seq<real>, samples: seq<nat>, fs: seq<nat>, f: nat, t: real, l: Node, r: Node, layL: Layout, layR: Layout,
                      g: nat, decrease: real, own: real)
    requires samples != [] && decrease == CutScore(y, samples, layL.samples, layR.samples)
    requires own == if f == g then |samples| as real * decrease else 0.0
    ensures Gain(Split(f, t, l, r), SplitAt(samples, fs, layL, layR), y, g)
            == own + Gain(l, layL, y, g) + Gain(r, layR, y, g)
  {
    UnfoldGain(y, samples, fs, f, t, l, r, layL, layR, g);
    OwnGainIs(f, g, y, samples, layL.samples, layR.samples, decrease, own);
  }

  lemma UnfoldGain(y: seq<real>, samples: seq<nat>, fs: seq<nat>, f: nat, t: real, l: Node, r: Node, layL: Layout, layR: Layout, g: nat)
    requires samples != []
    ensures Gain(Split(f, t, l, r), SplitAt(samples, fs, layL, layR), y, g)
            == OwnGain(f, g, y, samples, layL.samples, layR.samples) + Gain(l, layL, y, g) + Gain(r, layR, y, g)
  {
  }

  lemma OwnGainIs(f: nat, g: nat, y: seq<real>, samples: seq<nat>, L: seq<nat>, R: seq<nat>, decrease: real, own: real)
    requires samples != [] && decrease == CutScore(y, samples, L, R)
    requires own == if f == g then |samples| as real * decrease else 0.0
    ensures OwnGain(f, g, y, samples, L, R) == own
  {
  }

  /** A tree with no split on feature g adds nothing to its importance. */
  lemma {:induction false} GainWithoutSplits(node: Node, lay: Layout, y: seq<real>, g: nat)
    requires g !in SplitFeatures(node)
    ensures Gain(node, lay, y, g) == 0.0
  {
    match node
    case Split(f, _, l, r) =>
      if lay.SplitAt? && lay.samples != [] {
        GainWithoutSplits(l, lay.left, y, g);
        GainWithoutSplits(r, lay.right, y, g);
      }
    case _ =>
  }

  /** The features the tree splits on. */
  function SplitFeatures(node: Node): set<nat>
  {
    match node
    case Split(f, _, l, r) => {f} + SplitFeatures(l) + SplitFeatures(r)
    case _ => {}
  }

  /** A tree of an ensemble with its per-feature importance vector. */
  datatype Tree = Tree(root: Node, importance: seq<real>)

  /** The importance vectors of a list of trees. */
  function ImportanceVectors(trees: seq<Tree>): (r: seq<seq<real>>)
    ensures |r| == |trees|
    ensures forall t :: 0 <= t < |trees| ==> r[t] == trees[t].importance
  {
    seq(|trees|, t requires 0 <= t < |trees| => trees[t].importance)
  }

  /** Every feature index in `features` addresses a column of every sample. */
  lemma ReadableFeatures(X: seq<seq<real>>, samples: seq<nat>, features: seq<nat>, n: nat)
    requires Shaped(X, n) && InRange(samples, |X|)
    requires forall i :: 0 <= i < |features| ==> features[i] < n
    ensures forall i :: 0 <= i < |features| ==> Readable(X, samples, features[i])
  {
  }

  /** A sub-list of a partition stays in range. */
  lemma PartsInRange(samples: seq<nat>, L: seq<nat>, R: seq<nat>, n: nat)
    requires InRange(samples, n) && multiset(L) + multiset(R) == multiset(samples)
    ensures InRange(L, n) && InRange(R, n)
  {
    forall k | 0 <= k < |L| ensures L[k] < n {
      assert L[k] in multiset(samples);
    }
    forall k | 0 <= k < |R| ensures R[k] < n {
      assert R[k] in multiset(samples);
    }
  }

  // ---------------------------------------------------------------------
  // Ensembles of grown trees
  // ---------------------------------------------------------------------

  /** Every target of the listed samples lies in [lo, hi]. */
  ghost predicate TargetsBetween(y: seq<real>, samples: seq<nat>, lo: real, hi: real)
  {
    forall k :: 0 <= k < |samples| ==> lo <= At(y, samples[k]) <= hi
  }

  /** A tree grown from a non-empty sample list only ends in leaves that
      average some of those samples, so all its outputs lie in their
      target range. */
  lemma {:induction false} OutputsBetween(node: Node, lay: Layout, X: seq<seq<real>>, y: seq<real>,
                                          depth: int, rules: Rules, lo: real, hi: real)
    requires Grown(node, lay, X, y, depth, rules) && lay.samples != []
    requires TargetsBetween(y, lay.samples, lo, hi)
    ensures forall k :: 0 <= k < |Outputs(node)| ==> lo <= Outputs(node)[k] <= hi
  {
    match node
    case Leaf(v) =>
      MeanBetween(y, lay.samples, lo, hi);
    case Split(f, t, l, r) =>
      SubTargetsBetween(y, lay.samples, lay.left.samples, lay.right.samples, lo, hi);
      OutputsBetween(l, lay.left, X, y, depth + 1, rules, lo, hi);
      OutputsBetween(r, lay.right, X, y, depth + 1, rules, lo, hi);
  }

  lemma SubTargetsBetween(y: seq<real>, samples: seq<nat>, L: seq<nat>, R: seq<nat>, lo: real, hi: real)
    requires multiset(L) + multiset(R) == multiset(samples) && TargetsBetween(y, samples, lo, hi)
    ensures TargetsBetween(y, L, lo, hi) && TargetsBetween(y, R, lo, hi)
  {
    forall k | 0 <= k < |L| ensures lo <= At(y, L[k]) <= hi {
      assert L[k] in multiset(samples);
      var j :| 0 <= j < |samples| && samples[j] == L[k];
    }
    forall k | 0 <= k < |R| ensures lo <= At(y, R[k]) <= hi {
      assert R[k] in multiset(samples);
      var j :| 0 <= j < |samples| && samples[j] == R[k];
    }
  }

  /** y.mean(), the initial prediction of the boosting models; an empty y
      (0/0, NaN in the source) reads as 0. */
  function TargetMean(y: seq<real>): real
  {
    Mean(y, Iota(|y|))
  }

  /** The sum of the trees' predictions for input x. */
  function TreeSum(trees: seq<Tree>, x: seq<real>): real
    requires forall t :: 0 <= t < |trees| ==> FeaturesBelow(trees[t].root, |x|)
  {
    if trees == [] then 0.0 else TreeSum(trees[..|trees| - 1], x) + PredictTree(x, trees[|trees| - 1].root)
  }

  /** k copies of c added up, written as a sum so that the bounds below stay
      linear. */
  function Repeated(k: nat, c: real): real
  {
    if k == 0 then 0.0 else Repeated(k - 1, c) + c
  }

  lemma {:induction false} RepeatedIsProduct(k: nat, c: real)
    ensures Repeated(k, c) == k as real * c
  {
    if k > 0 {
      RepeatedIsProduct(k - 1, c);
      assert k as real * c == (k - 1) as real * c + c;
    }
  }

  /** When every tree predicts within [lo, hi] at x, the sum of the
      predictions lies between |trees| * lo and |trees| * hi. */
  lemma {:induction false} TreeSumBetween(trees: seq<Tree>, x: seq<real>, lo: real, hi: real)
    requires forall t :: 0 <= t < |trees| ==> FeaturesBelow(trees[t].root, |x|)
    requires forall t :: 0 <= t < |trees| ==> lo <= PredictTree(x, trees[t].root) <= hi
    ensures Repeated(|trees|, lo) <= TreeSum(trees, x) <= Repeated(|trees|, hi)
  {
    if trees != [] {
      var init := trees[..|trees| - 1];
      TreeSumBetween(init, x, lo, hi);
      assert lo <= PredictTree(x, trees[|trees| - 1].root) <= hi;
    }
  }

  /** One tree of a fitted ensemble: grown by the rules from `lay`'s samples,
      splitting only on the n features, with the importance of each feature
      the weighted variance reduction of its splits. */
  ghost predicate GrownTree(t: Tree, lay: Layout, X: seq<seq<real>>, y: seq<real>, rules: Rules, n: nat)
  {
    Grown(t.root, lay, X, y, 0, rules)
    && FeaturesBelow(t.root, n) && |t.importance| == n
    && forall g :: 0 <= g < n ==> t.importance[g] == Gain(t.root, lay, y, g)
  }

  /** Every tree splits on features below n and has an importance entry per feature. */
  predicate Shapes(trees: seq<Tree>, n: nat)
  {
    forall t :: 0 <= t < |trees| ==> FeaturesBelow(trees[t].root, n) && |trees[t].importance| == n
  }

  lemma TargetsOfSamples(y: seq<real>, samples: seq<nat>, lo: real, hi: real)
    requires InRange(samples, |y|) && forall k :: 0 <= k < |y| ==> lo <= y[k] <= hi
    ensures TargetsBetween(y, samples, lo, hi)
  {
    forall k | 0 <= k < |samples| ensures lo <= At(y, samples[k]) <= hi {
      assert samples[k] < |y|;
    }
  }

  lemma OutputBetween(node: Node, x: seq<real>, lo: real, hi: real)
    requires FeaturesBelow(node, |x|)
    requires forall k :: 0 <= k < |Outputs(node)| ==> lo <= Outputs(node)[k] <= hi
    ensures lo <= PredictTree(x, node) <= hi
  {
    var v := PredictTree(x, node);
    var k :| 0 <= k < |Outputs(node)| && Outputs(node)[k] == v;
  }
}
