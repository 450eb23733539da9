/**
 * XGBoost (src/models/XGBoost.cpp): gradient boosting with second-order
 * leaf values. With squared error the gradient at prediction F is F - y and
 * every hessian is 1, so a hessian sum is a sample count. Each tree is grown
 * on the gradients of the current predictions; a node splits on the cut with
 * the highest gain among a column sample, only when that gain exceeds gamma
 * and both sides get samples, and a leaf holds the Newton step
 * -G / (H + 1e-6).
 */
module XGBoosts {
  import opened Wrappers
  import opened Strings
  import opened Trees
  import opened ModelCommon
  import opened Growth

  /** The 1e-6 added to every hessian sum before dividing by it. */
  const Epsilon: real := 0.000001

  // ---------------------------------------------------------------------
  // Gradients and leaf values
  // ---------------------------------------------------------------------

  /** gradients = F - y (fit, line 78). */
  function Gradients(F: seq<real>, y: seq<real>): (g: seq<real>)
    requires |F| == |y|
    ensures |g| == |y|
  {
    seq(|y|, i requires 0 <= i < |y| => F[i] - y[i])
  }

  /** calculateLeafValue: minus the gradient sum over the hessian sum (one
      per sample) plus 1e-6; 0 for no samples. */
  function LeafValue(g: seq<real>, samples: seq<nat>): real
  {
    -Sum(g, samples) / (|samples| as real + Epsilon)
  }

  /** A leaf never moves a prediction further than the largest gradient:
      with every gradient of its samples in [lo, hi], lo <= 0 <= hi, the
      leaf value lies in [-hi, -lo]. */
  lemma LeafValueBetween(g: seq<real>, samples: seq<nat>, lo: real, hi: real)
    requires lo <= 0.0 <= hi
    requires forall k :: 0 <= k < |samples| ==> lo <= At(g, samples[k]) <= hi
    ensures -hi <= LeafValue(g, samples) <= -lo
  {
    var n := |samples| as real;
    var s := Sum(g, samples);
    SumBetween(g, samples, lo, hi);
    assert lo * (n + Epsilon) <= s by {
      assert lo * (n + Epsilon) == n * lo + lo * Epsilon;
    }
    assert s <= hi * (n + Epsilon) by {
      assert hi * (n + Epsilon) == n * hi + hi * Epsilon;
    }
    DivideBounds(s, n + Epsilon, lo, hi);
  }

  /** The loop summing the gradients and the hessians (all 1) of the samples
      (calculateLeafValue and the start of findBestSplit). */
  method NodeSums(g: seq<real>, samples: seq<nat>) returns (sumGradients: real, sumHessians: real)
    requires InRange(samples, |g|)
    ensures sumGradients == Sum(g, samples) && sumHessians == |samples| as real
  {
    sumGradients, sumHessians := 0.0, 0.0;
    var k := 0;
    while k < |samples|
      invariant 0 <= k <= |samples|
      invariant sumGradients == Sum(g, samples[..k]) && sumHessians == k as real
    {
      assert samples[..k + 1][..k] == samples[..k];
      sumGradients := sumGradients + g[samples[k]];
      sumHessians := sumHessians + 1.0;
      k := k + 1;
    }
    assert samples[..k] == samples;
  }

  method CalculateLeafValue(g: seq<real>, samples: seq<nat>) returns (v: real)
    requires InRange(samples, |g|)
    ensures v == LeafValue(g, samples)
  {
    var sumGradients, sumHessians := NodeSums(g, samples);
    v := -sumGradients / (sumHessians + Epsilon);
  }

  // ---------------------------------------------------------------------
  // Sampling rows and columns
  // ---------------------------------------------------------------------

  /**
   * How many of n rows (or columns) a fraction keeps:
   * static_cast<int>(n * fraction) when fraction < 1, otherwise n. A
   * negative count is what a negative fraction can give; resizing a vector
   * to it throws. The product is written as a repeated sum, which
   * KeptIsTruncatedProduct equates with n * fraction.
   */
  function Kept(n: nat, fraction: real): (k: int)
    ensures fraction >= 1.0 ==> k == n
    ensures k <= n
    ensures 0.0 <= fraction < 1.0 ==> 0 <= k
    ensures k < 0 ==> fraction < 0.0
  {
    if fraction < 1.0 then
      KeptIsTruncatedProduct(n, fraction);
      Truncate(Repeated(n, fraction))
    else n
  }

  /** Below 1, the count is n * fraction truncated toward zero, at most n,
      and at least 0 when the fraction is. */
  lemma KeptIsTruncatedProduct(n: nat, fraction: real)
    requires fraction < 1.0
    ensures Truncate(Repeated(n, fraction)) == Truncate(n as real * fraction)
    ensures n as real * fraction <= n as real
    ensures 0.0 <= fraction ==> 0.0 <= n as real * fraction
  {
    RepeatedIsProduct(n, fraction);
    assert n as real - n as real * fraction == n as real * (1.0 - fraction);
  }

  /** `idx` is what sampling a fraction of 0..n-1 yields: Kept(n, fraction)
      distinct values below n, and all of 0..n-1 in order for a fraction
      of at least 1. */
  ghost predicate Sampled(idx: seq<nat>, n: nat, fraction: real)
  {
    |idx| == Kept(n, fraction) && Distinct(idx) && InRange(idx, n)
    && (fraction >= 1.0 ==> idx == Iota(n))
  }

  /** Subsampling rows (fit, lines 84-100) or columns (buildTree, lines
      149-168): the first Kept(n, fraction) entries of the k-th shuffle of
      0..n-1 when fraction < 1, otherwise 0..n-1; ok is false exactly when
      the count is negative and resize throws. */
  method SampleIndices(e: Engine, k: nat, n: nat, fraction: real) returns (idx: seq<nat>, ok: bool, next: nat)
    requires Sound(e)
    ensures ok <==> Kept(n, fraction) >= 0
    ensures ok ==> Sampled(idx, n, fraction)
    ensures fraction < 1.0 ==> next == k + 1 && (ok ==> idx == e.shuffle(k, n)[..|idx|])
    ensures fraction >= 1.0 ==> next == k
  {
    if fraction < 1.0 {
      var size := Truncate(n as real * fraction);
      KeptIsTruncatedProduct(n, fraction);
      var order := e.shuffle(k, n);
      assert IsPermutation(order, n);
      next := k + 1;
      if size < 0 {
        return [], false, next;
      }
      assert size == Kept(n, fraction);
      idx, ok := order[..size], true;
    } else {
      idx := [];
      var j := 0;
      while j < n
        invariant 0 <= j <= n && |idx| == j
        invariant forall i :: 0 <= i < j ==> idx[i] == i
      {
        idx := idx + [j];
        j := j + 1;
      }
      ok, next := true, k;
      assert Distinct(idx) by {
        assert forall a, b :: 0 <= a < b < |idx| ==> idx[a] != idx[b];
      }
    }
  }

  // ---------------------------------------------------------------------
  // Cuts
  // ---------------------------------------------------------------------

  /** G^2 / (H + 1e-6): the score of a side with gradient sum G and hessian
      sum H. */
  function Score(G: real, H: real): real
    requires H >= 0.0
  {
    G * G / (H + Epsilon)
  }

  /** Position i of a feature's sorted pairs may be scored: a pair follows
      it, and neither the hessian sum up to it (i + 1) nor the rest
      (|P| - i - 1) is below minChildWeight. */
  predicate Admissible(P: seq<Pair>, i: int, minChildWeight: int)
  {
    0 <= i < |P| - 1
    && !((i + 1) as real < minChildWeight as real || (|P| - (i + 1)) as real < minChildWeight as real)
  }

  /** The gain of cutting the sorted pairs after position i: the scores of
      the prefix and of the rest, minus the score of the node. */
  function CutGain(g: seq<real>, samples: seq<nat>, P: seq<Pair>, i: nat): real
    requires i < |P| == |samples|
  {
    var G := Sum(g, samples);
    var GL := Sum(g, Seconds(P[..i + 1]));
    Score(GL, (i + 1) as real) + Score(G - GL, |samples| as real - (i + 1) as real) - Score(G, |samples| as real)
  }

  /** The split value of a cut after position i: the midpoint of the values
      either side of it. */
  function Mid(P: seq<Pair>, i: nat): real
    requires i + 1 < |P|
  {
    (P[i].0 + P[i + 1].0) / 2.0
  }

  /** The samples whose feature f is at most t, in sample order
      (leftIndices). */
  function Below(X: seq<seq<real>>, samples: seq<nat>, f: nat, t: real): seq<nat>
  {
    if samples == [] then []
    else Below(X, samples[..|samples| - 1], f, t)
         + (if Value(X, samples[|samples| - 1], f) <= t then [samples[|samples| - 1]] else [])
  }

  /** The samples whose feature f is above t, in sample order
      (rightIndices). */
  function Beyond(X: seq<seq<real>>, samples: seq<nat>, f: nat, t: real): seq<nat>
  {
    if samples == [] then []
    else Beyond(X, samples[..|samples| - 1], f, t)
         + (if Value(X, samples[|samples| - 1], f) <= t then [] else [samples[|samples| - 1]])
  }

  /** Every sample on the left has feature f at most t. */
  lemma {:induction false} BelowAtMost(X: seq<seq<real>>, samples: seq<nat>, f: nat, t: real)
    ensures forall k :: 0 <= k < |Below(X, samples, f, t)| ==> Value(X, Below(X, samples, f, t)[k], f) <= t
  {
    if samples != [] {
      BelowAtMost(X, samples[..|samples| - 1], f, t);
    }
  }

  /** Every sample on the right has feature f above t. */
  lemma {:induction false} BeyondAbove(X: seq<seq<real>>, samples: seq<nat>, f: nat, t: real)
    ensures forall k :: 0 <= k < |Beyond(X, samples, f, t)| ==> Value(X, Beyond(X, samples, f, t)[k], f) > t
  {
    if samples != [] {
      BeyondAbove(X, samples[..|samples| - 1], f, t);
    }
  }

  /** Between them the two sides hold every sample once. */
  lemma {:induction false} SidesMultiset(X: seq<seq<real>>, samples: seq<nat>, f: nat, t: real)
    ensures multiset(Below(X, samples, f, t)) + multiset(Beyond(X, samples, f, t)) == multiset(samples)
  {
    if samples != [] {
      var init := samples[..|samples| - 1];
      SidesMultiset(X, init, f, t);
      assert samples == init + [samples[|samples| - 1]];
    }
  }

  /** The two sides share out the samples, at most t on the left and above
      t on the right. */
  lemma SidesPartition(X: seq<seq<real>>, samples: seq<nat>, f: nat, t: real)
    ensures Partitions(X, samples, f, t, Below(X, samples, f, t), Beyond(X, samples, f, t))
  {
    BelowAtMost(X, samples, f, t);
    BeyondAbove(X, samples, f, t);
    SidesMultiset(X, samples, f, t);
  }

  /** The partition loop of findBestSplit (lines 275-281): each sample, in
      order, to the left when its value is at most t, else to the right. */
  method Divide(X: seq<seq<real>>, samples: seq<nat>, f: nat, t: real) returns (left: seq<nat>, right: seq<nat>)
    requires Readable(X, samples, f)
    ensures left == Below(X, samples, f, t) && right == Beyond(X, samples, f, t)
  {
    left, right := [], [];
    var k := 0;
    while k < |samples|
      invariant 0 <= k <= |samples|
      invariant left == Below(X, samples[..k], f, t) && right == Beyond(X, samples[..k], f, t)
    {
      assert samples[..k + 1][..k] == samples[..k];
      if X[samples[k]][f] <= t {
        left := left + [samples[k]];
      } else {
        right := right + [samples[k]];
      }
      k := k + 1;
    }
    assert samples[..k] == samples;
  }

  /** What findBestSplit's out-parameters hold for the cut after position i
      of feature f: the midpoint, the gain and the two sides. */
  function CutAt(X: seq<seq<real>>, g: seq<real>, samples: seq<nat>, f: nat, P: seq<Pair>, i: nat): Best
    requires i + 1 < |P| == |samples|
  {
    Best(f, Mid(P, i), CutGain(g, samples, P, i), Below(X, samples, f, Mid(P, i)), Beyond(X, samples, f, Mid(P, i)))
  }

  /** findBestSplit's out-parameters before any cut is taken: feature -1,
      split 0, gain -1 and no sides. */
  const NoCut := Best(-1, 0.0, -1.0, [], [])

  /** One position of the inner loop: the cut replaces the best so far when
      it is admissible and its gain is strictly higher. */
  function ScanStep(X: seq<seq<real>>, g: seq<real>, samples: seq<nat>, f: nat, P: seq<Pair>, minChildWeight: int,
                    i: nat, best: Best): Best
    requires i + 1 < |P| == |samples|
  {
    if Admissible(P, i, minChildWeight) && CutGain(g, samples, P, i) > best.score then CutAt(X, g, samples, f, P, i)
    else best
  }

  /** The best after the first i positions of feature f's sorted pairs P,
      starting from `start`. */
  function ScanCuts(X: seq<seq<real>>, g: seq<real>, samples: seq<nat>, f: nat, P: seq<Pair>, minChildWeight: int,
                    i: nat, start: Best): Best
    requires i < |P| == |samples|
  {
    if i == 0 then start
    else ScanStep(X, g, samples, f, P, minChildWeight, i - 1, ScanCuts(X, g, samples, f, P, minChildWeight, i - 1, start))
  }

  /** The best after scanning every position of feature f, starting from
      `start`. */
  function FeatureScan(X: seq<seq<real>>, g: seq<real>, samples: seq<nat>, f: nat, minChildWeight: int,
                       start: Best): Best
    requires samples != []
  {
    var P := SortedByFeature(X, samples, f);
    ScanCuts(X, g, samples, f, P, minChildWeight, |P| - 1, start)
  }

  /** The best after the first k features of the feature loop. */
  function ScanFeatures(X: seq<seq<real>>, g: seq<real>, samples: seq<nat>, features: seq<nat>, minChildWeight: int,
                        k: nat): Best
    requires samples != [] && k <= |features|
  {
    if k == 0 then NoCut
    else FeatureScan(X, g, samples, features[k - 1], minChildWeight, ScanFeatures(X, g, samples, features, minChildWeight, k - 1))
  }

  /** What findBestSplit reports for the samples over the given features. */
  function BestSplit(X: seq<seq<real>>, g: seq<real>, samples: seq<nat>, features: seq<nat>, minChildWeight: int): Best
    requires samples != []
  {
    ScanFeatures(X, g, samples, features, minChildWeight, |features|)
  }

  /** Every admissible cut of feature f has a gain of at most `bound`. */
  ghost predicate CutsAtMost(X: seq<seq<real>>, g: seq<real>, samples: seq<nat>, f: nat, minChildWeight: int, bound: real)
  {
    var P := SortedByFeature(X, samples, f);
    forall j :: Admissible(P, j, minChildWeight) ==> CutGain(g, samples, P, j) <= bound
  }

  /** Every admissible cut of the first k features has a gain of at most
      `bound`. */
  ghost predicate FeatureCutsAtMost(X: seq<seq<real>>, g: seq<real>, samples: seq<nat>, features: seq<nat>,
                                    minChildWeight: int, k: nat, bound: real)
    requires k <= |features|
  {
    forall fi :: 0 <= fi < k ==> CutsAtMost(X, g, samples, features[fi], minChildWeight, bound)
  }

  /** A bound on the cuts of the first k features holds for any higher
      bound. */
  lemma FeatureCutsRaise(X: seq<seq<real>>, g: seq<real>, samples: seq<nat>, features: seq<nat>,
                         minChildWeight: int, k: nat, low: real, high: real)
    requires k <= |features| && low <= high
    requires FeatureCutsAtMost(X, g, samples, features, minChildWeight, k, low)
    ensures FeatureCutsAtMost(X, g, samples, features, minChildWeight, k, high)
  {
    forall fi | 0 <= fi < k ensures CutsAtMost(X, g, samples, features[fi], minChildWeight, high) {
      assert CutsAtMost(X, g, samples, features[fi], minChildWeight, low);
    }
  }

  /** Scanning feature k on from `before` bounds the cuts of the first
      k + 1 features. */
  lemma FeatureCutsStep(X: seq<seq<real>>, g: seq<real>, samples: seq<nat>, features: seq<nat>,
                        minChildWeight: int, k: nat, before: Best, after: Best)
    requires samples != [] && k < |features|
    requires FeatureCutsAtMost(X, g, samples, features, minChildWeight, k, before.score)
    requires after == FeatureScan(X, g, samples, features[k], minChildWeight, before)
    ensures before.score <= after.score
    ensures FeatureCutsAtMost(X, g, samples, features, minChildWeight, k + 1, after.score)
  {
    var P := SortedByFeature(X, samples, features[k]);
    ScanCutsBound(X, g, samples, features[k], P, minChildWeight, |P| - 1, before);
    FeatureCutsRaise(X, g, samples, features, minChildWeight, k, before.score, after.score);
    assert CutsAtMost(X, g, samples, features[k], minChildWeight, after.score);
  }

  /** The scan never lowers the best gain, and ends with a gain at least
      that of every admissible position it passed. */
  lemma {:induction false} ScanCutsBound(X: seq<seq<real>>, g: seq<real>, samples: seq<nat>, f: nat, P: seq<Pair>,
                                         minChildWeight: int, i: nat, start: Best)
    requires i < |P| == |samples|
    ensures start.score <= ScanCuts(X, g, samples, f, P, minChildWeight, i, start).score
    ensures forall j :: 0 <= j < i && Admissible(P, j, minChildWeight) ==>
              CutGain(g, samples, P, j) <= ScanCuts(X, g, samples, f, P, minChildWeight, i, start).score
  {
    if i > 0 {
      ScanCutsBound(X, g, samples, f, P, minChildWeight, i - 1, start);
    }
  }

  /** The scan ends with its start or with an admissible cut it passed
      whose gain beats the start's. */
  lemma {:induction false} ScanCutsOrigin(X: seq<seq<real>>, g: seq<real>, samples: seq<nat>, f: nat, P: seq<Pair>,
                                          minChildWeight: int, i: nat, start: Best)
    returns (j: int)
    requires i < |P| == |samples|
    ensures j == -1 ==> ScanCuts(X, g, samples, f, P, minChildWeight, i, start) == start
    ensures j != -1 ==> 0 <= j < i && Admissible(P, j, minChildWeight) && CutGain(g, samples, P, j) > start.score
                        && ScanCuts(X, g, samples, f, P, minChildWeight, i, start) == CutAt(X, g, samples, f, P, j)
  {
    if i == 0 {
      return -1;
    }
    var before := ScanCuts(X, g, samples, f, P, minChildWeight, i - 1, start);
    if Admissible(P, i - 1, minChildWeight) && CutGain(g, samples, P, i - 1) > before.score {
      ScanCutsBound(X, g, samples, f, P, minChildWeight, i - 1, start);
      return i - 1;
    }
    j := ScanCutsOrigin(X, g, samples, f, P, minChildWeight, i - 1, start);
  }

  /** The feature loop never lowers the best gain below -1 and bounds every
      admissible cut of the features it passed. */
  lemma {:induction false} ScanFeaturesBound(X: seq<seq<real>>, g: seq<real>, samples: seq<nat>, features: seq<nat>,
                                             minChildWeight: int, k: nat)
    requires samples != [] && k <= |features|
    ensures ScanFeatures(X, g, samples, features, minChildWeight, k).score >= -1.0
    ensures FeatureCutsAtMost(X, g, samples, features, minChildWeight, k,
                              ScanFeatures(X, g, samples, features, minChildWeight, k).score)
  {
    if k > 0 {
      var before := ScanFeatures(X, g, samples, features, minChildWeight, k - 1);
      var after := ScanFeatures(X, g, samples, features, minChildWeight, k);
      ScanFeaturesBound(X, g, samples, features, minChildWeight, k - 1);
      FeatureCutsStep(X, g, samples, features, minChildWeight, k - 1, before, after);
    }
  }

  /** b is the cut after position j of feature features[fi]: admissible,
      of gain above -1. */
  ghost predicate FromCut(X: seq<seq<real>>, g: seq<real>, samples: seq<nat>, features: seq<nat>, minChildWeight: int,
                          fi: nat, j: nat, b: Best)
  {
    fi < |features| && |samples| > 0
    && var P := SortedByFeature(X, samples, features[fi]);
       Admissible(P, j, minChildWeight) && CutGain(g, samples, P, j) > -1.0
       && b == CutAt(X, g, samples, features[fi], P, j)
  }

  /** The feature loop ends with NoCut or with an admissible cut of one of
      the features it passed, of gain above -1. */
  lemma {:induction false} ScanFeaturesOrigin(X: seq<seq<real>>, g: seq<real>, samples: seq<nat>, features: seq<nat>,
                                              minChildWeight: int, k: nat)
    returns (fi: nat, j: nat)
    requires samples != [] && k <= |features|
    ensures ScanFeatures(X, g, samples, features, minChildWeight, k) == NoCut
            || (fi < k && FromCut(X, g, samples, features, minChildWeight, fi, j,
                                  ScanFeatures(X, g, samples, features, minChildWeight, k)))
  {
    if k == 0 {
      return 0, 0;
    }
    var f := features[k - 1];
    var P := SortedByFeature(X, samples, f);
    var before := ScanFeatures(X, g, samples, features, minChildWeight, k - 1);
    var i := ScanCutsOrigin(X, g, samples, f, P, minChildWeight, |P| - 1, before);
    if i != -1 {
      ScanFeaturesBound(X, g, samples, features, minChildWeight, k - 1);
      return k - 1, i;
    }
    fi, j := ScanFeaturesOrigin(X, g, samples, features, minChildWeight, k - 1);
  }

  /**
   * What findBestSplit promises: the reported gain bounds the gain of every
   * admissible cut of every considered feature. Feature -1 (with split 0,
   * gain -1 and no sides) is reported exactly when no admissible cut gains
   * more than -1; otherwise the report is an admissible cut of a considered
   * feature, split at the midpoint of the values either side of it, with
   * the samples at most that value on the left and the rest on the right.
   */
  lemma BestSplitFacts(X: seq<seq<real>>, g: seq<real>, samples: seq<nat>, features: seq<nat>, minChildWeight: int)
    returns (fi: nat, j: nat)
    requires samples != []
    ensures FeatureCutsAtMost(X, g, samples, features, minChildWeight, |features|,
                              BestSplit(X, g, samples, features, minChildWeight).score)
    ensures BestSplit(X, g, samples, features, minChildWeight).feature == -1
            <==> FeatureCutsAtMost(X, g, samples, features, minChildWeight, |features|, -1.0)
    ensures BestSplit(X, g, samples, features, minChildWeight).feature == -1
            ==> BestSplit(X, g, samples, features, minChildWeight) == NoCut
    ensures BestSplit(X, g, samples, features, minChildWeight).feature != -1
            ==> FromCut(X, g, samples, features, minChildWeight, fi, j, BestSplit(X, g, samples, features, minChildWeight))
    ensures BestSplit(X, g, samples, features, minChildWeight).feature != -1
            ==> fi < |features| && BestSplit(X, g, samples, features, minChildWeight).feature == features[fi]
                && Partitions(X, samples, features[fi], BestSplit(X, g, samples, features, minChildWeight).split,
                           BestSplit(X, g, samples, features, minChildWeight).left,
                           BestSplit(X, g, samples, features, minChildWeight).right)
  {
    var b := BestSplit(X, g, samples, features, minChildWeight);
    ScanFeaturesBound(X, g, samples, features, minChildWeight, |features|);
    fi, j := ScanFeaturesOrigin(X, g, samples, features, minChildWeight, |features|);
    if b.feature != -1 {
      var P := SortedByFeature(X, samples, features[fi]);
      SidesPartition(X, samples, features[fi], Mid(P, j));
      assert !FeatureCutsAtMost(X, g, samples, features, minChildWeight, |features|, -1.0) by {
        assert !CutsAtMost(X, g, samples, features[fi], minChildWeight, -1.0);
      }
    }
  }

  // ---------------------------------------------------------------------
  // findBestSplit
  // ---------------------------------------------------------------------

  /** The pairs of position i are the pairs before it plus P[i]'s sample:
      the left gradient sum grows by that sample's gradient. */
  lemma PrefixGradient(g: seq<real>, P: seq<Pair>, i: nat)
    requires i < |P|
    ensures Sum(g, Seconds(P[..i + 1])) == Sum(g, Seconds(P[..i])) + At(g, P[i].1)
  {
    SecondsSnoc(P[..i + 1]);
    assert P[..i + 1][..i] == P[..i];
  }

  /** The sorted pairs of a feature carry only the samples' own indices. */
  lemma PairsInRange(X: seq<seq<real>>, samples: seq<nat>, f: nat, n: nat)
    requires InRange(samples, n)
    ensures forall j :: 0 <= j < |SortedByFeature(X, samples, f)| ==> SortedByFeature(X, samples, f)[j].1 < n
  {
    var P := SortedByFeature(X, samples, f);
    SortedByFeatureFrom(X, samples, f);
    forall j | 0 <= j < |P| ensures P[j].1 < n {
      var m :| 0 <= m < |samples| && samples[m] == P[j].1;
    }
  }

  /** One position of the inner loop of findBestSplit, with the left sums
      already grown by pair i: the cut is scored when both sides are heavy
      enough and replaces the best so far when its gain is higher. */
  method ConsiderCut(X: seq<seq<real>>, g: seq<real>, samples: seq<nat>, f: nat, P: seq<Pair>, minChildWeight: int,
                     i: nat, leftGradSum: real, leftHessSum: real, sumGradients: real, sumHessians: real,
                     currentScore: real, best: Best)
    returns (next: Best)
    requires i + 1 < |P| == |samples| && Readable(X, samples, f)
    requires leftGradSum == Sum(g, Seconds(P[..i + 1])) && leftHessSum == (i + 1) as real
    requires sumGradients == Sum(g, samples) && sumHessians == |samples| as real
    requires currentScore == Score(sumGradients, sumHessians)
    ensures next == ScanStep(X, g, samples, f, P, minChildWeight, i, best)
  {
    next := best;
    var rightGradSum := sumGradients - leftGradSum;
    var rightHessSum := sumHessians - leftHessSum;
    if !(leftHessSum < minChildWeight as real || rightHessSum < minChildWeight as real) {
      var gain := Score(leftGradSum, leftHessSum) + Score(rightGradSum, rightHessSum) - currentScore;
      assert gain == CutGain(g, samples, P, i);
      if gain > best.score {
        var split := (P[i].0 + P[i + 1].0) / 2.0;
        var left, right := Divide(X, samples, f, split);
        next := Best(f, split, gain, left, right);
      }
    }
  }

  /** The inner loop of findBestSplit for one feature f with sorted pairs
      P: the left gradient and hessian sums grow pair by pair and each
      position is considered in turn. */
  method ScanFeature(X: seq<seq<real>>, g: seq<real>, samples: seq<nat>, f: nat, P: seq<Pair>, minChildWeight: int,
                     sumGradients: real, sumHessians: real, currentScore: real, best: Best)
    returns (next: Best)
    requires |P| == |samples| > 0 && Readable(X, samples, f)
    requires forall k :: 0 <= k < |P| ==> P[k].1 < |g|
    requires sumGradients == Sum(g, samples) && sumHessians == |samples| as real
    requires currentScore == Score(sumGradients, sumHessians)
    ensures next == ScanCuts(X, g, samples, f, P, minChildWeight, |P| - 1, best)
  {
    next := best;
    var leftGradSum, leftHessSum := 0.0, 0.0;
    var i := 0;
    while i < |P| - 1
      invariant 0 <= i <= |P| - 1
      invariant leftGradSum == Sum(g, Seconds(P[..i])) && leftHessSum == i as real
      invariant next == ScanCuts(X, g, samples, f, P, minChildWeight, i, best)
    {
      var idx := P[i].1;
      PrefixGradient(g, P, i);
      leftGradSum := leftGradSum + g[idx];
      leftHessSum := leftHessSum + 1.0;
      next := ConsiderCut(X, g, samples, f, P, minChildWeight, i, leftGradSum, leftHessSum,
                          sumGradients, sumHessians, currentScore, next);
      i := i + 1;
    }
  }

  /** findBestSplit: the node's sums and score, then for each feature in
      turn its (value, sample) pairs sorted and scanned. */
  method XFindBestSplit(X: seq<seq<real>>, g: seq<real>, samples: seq<nat>, features: seq<nat>, minChildWeight: int)
    returns (best: Best)
    requires samples != [] && InRange(samples, |g|)
    requires forall i :: 0 <= i < |features| ==> Readable(X, samples, features[i])
    ensures best == BestSplit(X, g, samples, features, minChildWeight)
  {
    var sumGradients, sumHessians := NodeSums(g, samples);
    var currentScore := Score(sumGradients, sumHessians);
    best := NoCut;
    var k := 0;
    while k < |features|
      invariant 0 <= k <= |features|
      invariant best == ScanFeatures(X, g, samples, features, minChildWeight, k)
    {
      var f := features[k];
      var pairs := CollectPairs(X, samples, f);
      var P := SortPairs(pairs);
      assert P == SortedByFeature(X, samples, f);
      PairsInRange(X, samples, f, |g|);
      best := ScanFeature(X, g, samples, f, P, minChildWeight, sumGradients, sumHessians, currentScore, best);
      k := k + 1;
    }
  }

  // ---------------------------------------------------------------------
  // The trees buildTree grows
  // ---------------------------------------------------------------------

  /** The hyperparameters buildTree consults. */
  datatype Limits = Limits(maxDepth: int, minChildWeight: int, gamma: real, colsample: real)

  /** The stop rule checked first: the depth reached, or no more samples
      than minChildWeight. The weight is compared as a size, so a negative
      one stops every node. */
  predicate XStops(lim: Limits, depth: int, size: nat)
  {
    depth >= lim.maxDepth || size <= ToSize(lim.minChildWeight)
  }

  /** A best split buildTree turns into a split node: gain above gamma and
      samples on both sides. */
  predicate Accepted(best: Best, gamma: real)
  {
    best.score > gamma && best.left != [] && best.right != []
  }

  /**
   * `node` is what buildTree grows at `depth` from the samples of `b` on
   * gradients g: a leaf holding the Newton step of its samples, made when
   * the stop rule holds or when the best split over a column sample is not
   * accepted; otherwise a split on the best split's feature and value,
   * whose children are grown the same way, one level deeper, from the best
   * split's two sides.
   */
  ghost predicate XGrown(node: Node, b: Layout, X: seq<seq<real>>, g: seq<real>, depth: int, lim: Limits, n: nat)
    decreases node
  {
    match node
    case Null => false
    case Leaf(v) =>
      b.LeafAt? && v == LeafValue(g, b.samples)
      && (XStops(lim, depth, |b.samples|)
          || (b.samples != [] && Sampled(b.features, n, lim.colsample)
              && !Accepted(BestSplit(X, g, b.samples, b.features, lim.minChildWeight), lim.gamma)))
    case Split(f, t, l, r) =>
      b.SplitAt? && !XStops(lim, depth, |b.samples|) && b.samples != [] && Sampled(b.features, n, lim.colsample)
      && Accepted(BestSplit(X, g, b.samples, b.features, lim.minChildWeight), lim.gamma)
      && BestSplit(X, g, b.samples, b.features, lim.minChildWeight)
         == Best(f, t, BestSplit(X, g, b.samples, b.features, lim.minChildWeight).score, b.left.samples, b.right.samples)
      && XGrown(l, b.left, X, g, depth + 1, lim, n) && XGrown(r, b.right, X, g, depth + 1, lim, n)
  }

  /** A split node of a grown tree tests a sampled column below n and
      shares its samples out between its children at its threshold. */
  lemma SplitFacts(node: Node, b: Layout, X: seq<seq<real>>, g: seq<real>, depth: int, lim: Limits, n: nat)
    requires XGrown(node, b, X, g, depth, lim, n) && node.Split?
    ensures node.feature < n
    ensures Partitions(X, b.samples, node.feature, node.threshold, b.left.samples, b.right.samples)
  {
    var fi, j := BestSplitFacts(X, g, b.samples, b.features, lim.minChildWeight);
  }

  /** No grown tree goes deeper than maxDepth. */
  lemma {:induction false} XDepthBound(node: Node, b: Layout, X: seq<seq<real>>, g: seq<real>, depth: int, lim: Limits, n: nat)
    requires XGrown(node, b, X, g, depth, lim, n)
    ensures Depth(node) == 0 || depth + Depth(node) <= lim.maxDepth
  {
    match node
    case Split(f, t, l, r) =>
      XDepthBound(l, b.left, X, g, depth + 1, lim, n);
      XDepthBound(r, b.right, X, g, depth + 1, lim, n);
    case _ =>
  }

  /** Every split of a grown tree tests one of the n columns. */
  lemma {:induction false} XFeaturesBelow(node: Node, b: Layout, X: seq<seq<real>>, g: seq<real>, depth: int, lim: Limits, n: nat)
    requires XGrown(node, b, X, g, depth, lim, n)
    ensures FeaturesBelow(node, n)
  {
    match node
    case Split(f, t, l, r) =>
      SplitFacts(node, b, X, g, depth, lim, n);
      XFeaturesBelow(l, b.left, X, g, depth + 1, lim, n);
      XFeaturesBelow(r, b.right, X, g, depth + 1, lim, n);
    case _ =>
  }

  /** The leaves share out the root's samples: each sample ends in exactly
      as many leaves as it occurs in the root's list. */
  lemma {:induction false} XLeavesPartition(node: Node, b: Layout, X: seq<seq<real>>, g: seq<real>, depth: int, lim: Limits, n: nat)
    requires XGrown(node, b, X, g, depth, lim, n)
    ensures multiset(LeafSamples(b)) == multiset(b.samples)
  {
    match node
    case Split(f, t, l, r) =>
      SplitFacts(node, b, X, g, depth, lim, n);
      XLeavesPartition(l, b.left, X, g, depth + 1, lim, n);
      XLeavesPartition(r, b.right, X, g, depth + 1, lim, n);
    case _ =>
  }

  /** Routing consistency: a sample the tree was grown from is routed to the
      leaf built from it, and the tree predicts that leaf's Newton step. */
  lemma {:induction false} XTrainingSampleRoutes(node: Node, b: Layout, X: seq<seq<real>>, g: seq<real>, depth: int,
                                                 lim: Limits, n: nat, s: nat)
    requires XGrown(node, b, X, g, depth, lim, n)
    requires s in b.samples && s < |X| && FeaturesBelow(node, |X[s]|)
    ensures s in Reached(node, b, X[s])
    ensures PredictTree(X[s], node) == LeafValue(g, Reached(node, b, X[s]))
  {
    match node
    case Leaf(v) =>
    case Split(f, t, l, r) =>
      SplitFacts(node, b, X, g, depth, lim, n);
      PartitionSide(X, b.samples, f, t, b.left.samples, b.right.samples, s);
      if X[s][f] <= t {
        XTrainingSampleRoutes(l, b.left, X, g, depth + 1, lim, n, s);
      } else {
        XTrainingSampleRoutes(r, b.right, X, g, depth + 1, lim, n, s);
      }
  }

  /** With every gradient in [lo, hi], lo <= 0 <= hi, every output of a
      grown tree lies in [-hi, -lo]: no leaf steps further than the
      largest gradient. */
  lemma {:induction false} XOutputsBetween(node: Node, b: Layout, X: seq<seq<real>>, g: seq<real>, depth: int,
                                           lim: Limits, n: nat, lo: real, hi: real)
    requires XGrown(node, b, X, g, depth, lim, n)
    requires lo <= 0.0 <= hi && forall k :: 0 <= k < |g| ==> lo <= g[k] <= hi
    ensures forall k :: 0 <= k < |Outputs(node)| ==> -hi <= Outputs(node)[k] <= -lo
  {
    match node
    case Leaf(v) =>
      assert forall k :: 0 <= k < |b.samples| ==> lo <= At(g, b.samples[k]) <= hi;
      LeafValueBetween(g, b.samples, lo, hi);
    case Split(f, t, l, r) =>
      XOutputsBetween(l, b.left, X, g, depth + 1, lim, n, lo, hi);
      XOutputsBetween(r, b.right, X, g, depth + 1, lim, n, lo, hi);
  }

  // ---------------------------------------------------------------------
  // The ensemble's prediction
  // ---------------------------------------------------------------------

  /** Every tree splits on features below n. */
  predicate RootsBelow(roots: seq<Node>, n: nat)
  {
    forall t :: 0 <= t < |roots| ==> FeaturesBelow(roots[t], n)
  }

  /** initialPrediction plus learningRate times each tree's prediction,
      added tree by tree. */
  function Ensemble(init: real, lr: real, roots: seq<Node>, x: seq<real>): real
    requires RootsBelow(roots, |x|)
  {
    if roots == [] then init
    else Ensemble(init, lr, roots[..|roots| - 1], x) + lr * PredictTree(x, roots[|roots| - 1])
  }

  /** The ensemble's prediction for every row of X. */
  function Predictions(init: real, lr: real, roots: seq<Node>, X: seq<seq<real>>, n: nat): (F: seq<real>)
    requires Shaped(X, n) && RootsBelow(roots, n)
    ensures |F| == |X|
  {
    seq(|X|, i requires 0 <= i < |X| => Ensemble(init, lr, roots, X[i]))
  }

  /** Appending a tree adds learningRate times its prediction. */
  lemma EnsembleAppend(init: real, lr: real, roots: seq<Node>, root: Node, x: seq<real>)
    requires RootsBelow(roots, |x|) && FeaturesBelow(root, |x|)
    ensures RootsBelow(roots + [root], |x|)
    ensures Ensemble(init, lr, roots + [root], x) == Ensemble(init, lr, roots, x) + lr * PredictTree(x, root)
  {
    assert (roots + [root])[..|roots|] == roots;
  }

  /** G is F moved by lr times the prediction of root on each row of X. */
  predicate Moved(G: seq<real>, F: seq<real>, X: seq<seq<real>>, lr: real, root: Node)
  {
    |G| == |F| == |X|
    && forall i :: 0 <= i < |X| ==> FeaturesBelow(root, |X[i]|) && G[i] == F[i] + lr * PredictTree(X[i], root)
  }

  /** The running predictions after one more tree. */
  lemma PredictionsAppend(init: real, lr: real, roots: seq<Node>, root: Node, X: seq<seq<real>>, n: nat,
                          F: seq<real>, G: seq<real>)
    requires Shaped(X, n) && RootsBelow(roots, n) && FeaturesBelow(root, n)
    requires F == Predictions(init, lr, roots, X, n)
    requires Moved(G, F, X, lr, root)
    ensures RootsBelow(roots + [root], n)
    ensures G == Predictions(init, lr, roots + [root], X, n)
  {
    assert RootsBelow(roots + [root], n);
    forall i | 0 <= i < |X| ensures G[i] == Ensemble(init, lr, roots + [root], X[i]) {
      EnsembleAppend(init, lr, roots, root, X[i]);
    }
  }

  /**
   * Tree k of a fit is grown from its own row sample on the gradients of
   * the predictions of the initial value and trees 0..k-1.
   */
  ghost predicate XBoostedAt(roots: seq<Node>, builts: seq<Layout>, X: seq<seq<real>>, y: seq<real>, init: real, lr: real,
                             lim: Limits, subsample: real, n: nat, k: nat)
    requires |builts| == |roots| && |y| == |X| && Shaped(X, n) && RootsBelow(roots, n) && k < |roots|
  {
    XGrown(roots[k], builts[k], X, Gradients(Predictions(init, lr, roots[..k], X, n), y), 0, lim, n)
    && Sampled(builts[k].samples, |X|, subsample)
  }

  /** The trees of a fit: every one of them boosted as XBoostedAt says. */
  ghost predicate AllXBoosted(roots: seq<Node>, builts: seq<Layout>, X: seq<seq<real>>, y: seq<real>, init: real, lr: real,
                              lim: Limits, subsample: real, n: nat)
    requires |builts| == |roots| && |y| == |X| && Shaped(X, n) && RootsBelow(roots, n)
  {
    forall k :: 0 <= k < |roots| ==> XBoostedAt(roots, builts, X, y, init, lr, lim, subsample, n, k)
  }

  /** A tree grown on the gradients of the current predictions extends the
      boosted sequence. */
  lemma AllXBoostedAppend(roots: seq<Node>, builts: seq<Layout>, root: Node, b: Layout, X: seq<seq<real>>, y: seq<real>,
                          init: real, lr: real, lim: Limits, subsample: real, n: nat, g: seq<real>)
    requires |builts| == |roots| && |y| == |X| && Shaped(X, n) && RootsBelow(roots, n) && FeaturesBelow(root, n)
    requires AllXBoosted(roots, builts, X, y, init, lr, lim, subsample, n)
    requires g == Gradients(Predictions(init, lr, roots, X, n), y)
    requires XGrown(root, b, X, g, 0, lim, n) && Sampled(b.samples, |X|, subsample)
    ensures RootsBelow(roots + [root], n)
    ensures AllXBoosted(roots + [root], builts + [b], X, y, init, lr, lim, subsample, n)
  {
    assert RootsBelow(roots + [root], n);
    forall k | 0 <= k < |roots| + 1
      ensures XBoostedAt(roots + [root], builts + [b], X, y, init, lr, lim, subsample, n, k)
    {
      if k < |roots| {
        assert (roots + [root])[..k] == roots[..k];
        assert XBoostedAt(roots, builts, X, y, init, lr, lim, subsample, n, k);
      } else {
        assert (roots + [root])[..k] == roots;
      }
    }
  }

  // ---------------------------------------------------------------------
  // Feature importance: split counts
  // ---------------------------------------------------------------------

  /** How many splits of the tree test feature f. */
  function SplitCount(node: Node, f: nat): nat
  {
    match node
    case Split(h, _, l, r) => (if h == f then 1 else 0) + SplitCount(l, f) + SplitCount(r, f)
    case _ => 0
  }

  /** The number of split nodes of the tree. */
  function Splits(node: Node): nat
  {
    match node
    case Split(_, _, l, r) => 1 + Splits(l) + Splits(r)
    case _ => 0
  }

  /** How many splits of all the trees test feature f. */
  function CountOver(roots: seq<Node>, f: nat): nat
  {
    if roots == [] then 0 else CountOver(roots[..|roots| - 1], f) + SplitCount(roots[|roots| - 1], f)
  }

  /** The number of split nodes of all the trees. */
  function TotalSplits(roots: seq<Node>): nat
  {
    if roots == [] then 0 else TotalSplits(roots[..|roots| - 1]) + Splits(roots[|roots| - 1])
  }

  /** featureCounts for features 0..n-1, as doubles. */
  function Counts(roots: seq<Node>, n: nat): (r: seq<real>)
    ensures |r| == n
  {
    seq(n, f requires 0 <= f < n => CountOver(roots, f) as real)
  }

  /** The splits of one tree on features below k. */
  function CountBelow(node: Node, k: nat): nat
  {
    if k == 0 then 0 else CountBelow(node, k - 1) + SplitCount(node, k - 1)
  }

  /** The splits of all the trees on features below k. */
  function CountSum(roots: seq<Node>, k: nat): nat
  {
    if k == 0 then 0 else CountSum(roots, k - 1) + CountOver(roots, k - 1)
  }

  lemma {:induction false} CountBelowSplit(h: nat, t: real, l: Node, r: Node, k: nat)
    ensures CountBelow(Split(h, t, l, r), k) == (if h < k then 1 else 0) + CountBelow(l, k) + CountBelow(r, k)
  {
    if k > 0 {
      CountBelowSplit(h, t, l, r, k - 1);
    }
  }

  /** Counted over the features it can test, a tree's splits are all its
      split nodes. */
  lemma {:induction false} CountBelowAll(node: Node, n: nat)
    requires FeaturesBelow(node, n)
    ensures CountBelow(node, n) == Splits(node)
  {
    match node
    case Split(h, t, l, r) =>
      CountBelowSplit(h, t, l, r, n);
      CountBelowAll(l, n);
      CountBelowAll(r, n);
    case Leaf(_) =>
      CountBelowZero(node, n);
    case Null =>
      CountBelowZero(node, n);
  }

  lemma {:induction false} CountBelowZero(node: Node, k: nat)
    requires !node.Split?
    ensures CountBelow(node, k) == 0
  {
    if k > 0 {
      CountBelowZero(node, k - 1);
    }
  }

  lemma {:induction false} CountSumSnoc(roots: seq<Node>, k: nat)
    requires roots != []
    ensures CountSum(roots, k) == CountSum(roots[..|roots| - 1], k) + CountBelow(roots[|roots| - 1], k)
  {
    if k > 0 {
      CountSumSnoc(roots, k - 1);
    }
  }

  /** Every split tests one of the n features, so the per-feature counts
      add up to the number of split nodes. */
  lemma {:induction false} CountSumAll(roots: seq<Node>, n: nat)
    requires RootsBelow(roots, n)
    ensures CountSum(roots, n) == TotalSplits(roots)
  {
    if roots == [] {
      CountSumEmpty(n);
    } else {
      CountSumSnoc(roots, n);
      CountSumAll(roots[..|roots| - 1], n);
      CountBelowAll(roots[|roots| - 1], n);
    }
  }

  lemma {:induction false} CountSumEmpty(k: nat)
    ensures CountSum([], k) == 0
  {
    if k > 0 {
      CountSumEmpty(k - 1);
    }
  }

  lemma {:induction false} CountsSumTo(roots: seq<Node>, n: nat, k: nat)
    requires k <= n
    ensures SumTo(Counts(roots, n), k) == CountSum(roots, k) as real
  {
    if k > 0 {
      CountsSumTo(roots, n, k - 1);
    }
  }

  /** The total the source normalises by, the sum of featureCounts, is the
      number of split nodes of all the trees. */
  lemma CountsTotal(roots: seq<Node>, n: nat)
    requires RootsBelow(roots, n)
    ensures SumTo(Counts(roots, n), n) == TotalSplits(roots) as real
  {
    CountsSumTo(roots, n, n);
    CountSumAll(roots, n);
  }

  /** The countFeatures traversal: counts[f] grows by the node's splits on
      f, parent before children. */
  method CountFeatures(node: Node, counts: seq<nat>) returns (r: seq<nat>)
    requires FeaturesBelow(node, |counts|)
    ensures |r| == |counts| && forall f :: 0 <= f < |r| ==> r[f] == counts[f] + SplitCount(node, f)
    decreases node
  {
    if !node.Split? {
      return counts;
    }
    r := counts[node.feature := counts[node.feature] + 1];
    r := CountFeatures(node.left, r);
    r := CountFeatures(node.right, r);
  }

  /**
   * calculateFeatureImportance: every name starts at 0; the splits of all
   * the trees are counted per feature and, when there is at least one,
   * name i gets count i over the total, otherwise 1/n each.
   */
  method XCalculateFeatureImportance(names: seq<string>, roots: seq<Node>, n: nat)
    returns (scores: map<string, real>)
    requires RootsBelow(roots, n)
    ensures scores == ImportanceScores(names, Counts(roots, n), n)
  {
    scores := map name | name in names :: 0.0;
    var counts := seq(n, _ => 0);
    var t := 0;
    while t < |roots|
      invariant 0 <= t <= |roots| && |counts| == n
      invariant forall f :: 0 <= f < n ==> counts[f] == CountOver(roots[..t], f)
    {
      assert roots[..t + 1][..t] == roots[..t];
      counts := CountFeatures(roots[t], counts);
      t := t + 1;
    }
    assert roots[..t] == roots;
    var totalSplits := 0;
    var i := 0;
    while i < n
      invariant 0 <= i <= n && totalSplits == CountSum(roots, i)
    {
      totalSplits := totalSplits + counts[i];
      i := i + 1;
    }
    CountsSumTo(roots, n, n);
    var shares;
    if totalSplits > 0 {
      shares := seq(n, j requires 0 <= j < n => counts[j] as real / totalSplits as real);
    } else {
      shares := seq(n, j requires 0 <= j < n => 1.0 / n as real);
    }
    assert shares == Shares(Counts(roots, n), n);
    scores := AssignShares(scores, names, shares, Min(n, |names|));
  }

  /**
   * What the importance map holds: the keys are the input names; with
   * distinct names, name i of the n features holds its share of all the
   * splits (1/n each when the trees have no split), and the shares add up
   * to 1.
   */
  lemma SplitImportance(names: seq<string>, roots: seq<Node>, n: nat, i: nat)
    requires RootsBelow(roots, n) && Distinct(names) && i < |names| && i < n
    ensures forall name :: name in ImportanceScores(names, Counts(roots, n), n) <==> name in names
    ensures TotalSplits(roots) > 0
            ==> ImportanceScores(names, Counts(roots, n), n)[names[i]]
                == CountOver(roots, i) as real / TotalSplits(roots) as real
    ensures TotalSplits(roots) == 0 ==> ImportanceScores(names, Counts(roots, n), n)[names[i]] == 1.0 / n as real
    ensures SumTo(Shares(Counts(roots, n), n), n) == 1.0
  {
    CountsTotal(roots, n);
    ImportanceKeys(names, Counts(roots, n), n);
    ImportanceOfName(names, Counts(roots, n), n, i);
    SharesSumToOne(Counts(roots, n), n);
  }

  // ---------------------------------------------------------------------
  // The model
  // ---------------------------------------------------------------------

  class XGBoost {
    var learningRate: real
    var maxDepth: int
    var nEstimators: int
    var subsample: real
    var colsampleBytree: real
    var minChildWeight: int
    var gamma: real

    var isFitted: bool
    var nSamples: nat
    var nFeatures: nat
    var initialPrediction: real
    var names: seq<string>
    var target: string
    var trees: seq<Node>
    var importanceScores: map<string, real>

    ghost predicate Valid()
      reads this
    {
      RootsBelow(trees, nFeatures)
    }

    /** The seven hyperparameters, which nothing but a constructor sets. */
    function Settings(): (real, int, int, real, real, int, real)
      reads this
    {
      (learningRate, maxDepth, nEstimators, subsample, colsampleBytree, minChildWeight, gamma)
    }

    /** The hyperparameters buildTree consults. */
    function Lim(): Limits
      reads this
    {
      Limits(maxDepth, minChildWeight, gamma, colsampleBytree)
    }

    /** The default constructor: learning rate 0.1, depth 6, 100 trees, no
        row or column sampling, minChildWeight 1, gamma 0. */
    constructor ()
      ensures Valid() && !isFitted && trees == []
      ensures Settings() == (0.1, 6, 100, 1.0, 1.0, 1, 0.0)
    {
      learningRate, maxDepth, nEstimators := 0.1, 6, 100;
      subsample, colsampleBytree, minChildWeight, gamma := 1.0, 1.0, 1, 0.0;
      isFitted, nSamples, nFeatures, initialPrediction := false, 0, 0, 0.0;
      names, target, trees, importanceScores := [], "", [], map[];
    }

    constructor WithParameters(learningRate: real, maxDepth: int, nEstimators: int, subsample: real,
                               colsampleBytree: real, minChildWeight: int, gamma: real)
      ensures Valid() && !isFitted && trees == []
      ensures Settings() == (learningRate, maxDepth, nEstimators, subsample, colsampleBytree, minChildWeight, gamma)
    {
      this.learningRate, this.maxDepth, this.nEstimators := learningRate, maxDepth, nEstimators;
      this.subsample, this.colsampleBytree := subsample, colsampleBytree;
      this.minChildWeight, this.gamma := minChildWeight, gamma;
      isFitted, nSamples, nFeatures, initialPrediction := false, 0, 0, 0.0;
      names, target, trees, importanceScores := [], "", [], map[];
    }

    /** Whether a round of boosting on m rows of n columns throws: the row
        sample count is negative, or the root does not stop and the column
        sample count is negative. Every round samples as many rows, so the
        first round throws when any does. */
    predicate RoundThrows(m: nat, n: nat)
      reads this
    {
      Kept(m, subsample) < 0
      || (Kept(m, subsample) >= 0 && !XStops(Lim(), 0, Kept(m, subsample)) && Kept(n, colsampleBytree) < 0)
    }

    /** Whether fit on m rows of n columns throws: a round runs and throws. */
    predicate Throws(m: nat, n: nat)
      reads this
    {
      nEstimators > 0 && RoundThrows(m, n)
    }

    /**
     * buildTree: a leaf holding the Newton step when the stop rule holds;
     * otherwise a column sample, the best split over it, a leaf again when
     * the split is not accepted, and otherwise a split node with its left
     * subtree built before its right one. ok is false when the column
     * sample throws; `next` counts the engine's shuffles.
     */
    method BuildTree(X: seq<seq<real>>, g: seq<real>, samples: seq<nat>, depth: int, e: Engine, next: nat)
      returns (node: Node, ghost b: Layout, ok: bool, next': nat)
      requires Shaped(X, nFeatures) && InRange(samples, |X|) && InRange(samples, |g|) && Sound(e)
      ensures b.samples == samples
      ensures ok <==> XStops(Lim(), depth, |samples|) || Kept(nFeatures, colsampleBytree) >= 0
      ensures ok ==> XGrown(node, b, X, g, depth, Lim(), nFeatures) && FeaturesBelow(node, nFeatures)
      decreases maxDepth - depth
    {
      if depth >= maxDepth || |samples| <= ToSize(minChildWeight) {
        var v := CalculateLeafValue(g, samples);
        return Leaf(v), LeafAt(samples, []), true, next;
      }
      var features, sampled, afterShuffle := SampleIndices(e, next, nFeatures, colsampleBytree);
      if !sampled {
        return Null, LeafAt(samples, []), false, afterShuffle;
      }
      ReadableFeatures(X, samples, features, nFeatures);
      var best := XFindBestSplit(X, g, samples, features, minChildWeight);
      if best.score <= gamma || best.left == [] || best.right == [] {
        var v := CalculateLeafValue(g, samples);
        return Leaf(v), LeafAt(samples, features), true, afterShuffle;
      }
      var fi, j := BestSplitFacts(X, g, samples, features, minChildWeight);
      PartsInRange(samples, best.left, best.right, |X|);
      PartsInRange(samples, best.left, best.right, |g|);
      var l, bl, okL, afterLeft := BuildTree(X, g, best.left, depth + 1, e, afterShuffle);
      var r, br, okR, afterRight := BuildTree(X, g, best.right, depth + 1, e, afterLeft);
      node := Split(best.feature as nat, best.split, l, r);
      b := SplitAt(samples, features, bl, br);
      return node, b, true, afterRight;
    }

    /** Adds learningRate times one tree's prediction to every row's
        running prediction (fit, lines 108-113, and predictAllTrees). */
    method AddScaledTree(F: seq<real>, X: seq<seq<real>>, root: Node) returns (G: seq<real>)
      requires |F| == |X| && Shaped(X, nFeatures) && FeaturesBelow(root, nFeatures)
      ensures Moved(G, F, X, learningRate, root)
    {
      G := F;
      var i := 0;
      while i < |X|
        invariant 0 <= i <= |X| && |G| == |X|
        invariant forall j :: 0 <= j < i ==> G[j] == F[j] + learningRate * PredictTree(X[j], root)
        invariant forall j :: i <= j < |X| ==> G[j] == F[j]
      {
        G := G[i := G[i] + learningRate * PredictTree(X[i], root)];
        i := i + 1;
      }
    }

    /**
     * The boosting loop of fit: nEstimators rounds (none when it is not
     * positive), each sampling rows, growing a tree on the gradients of the
     * current predictions F and adding learningRate times its prediction
     * to F. ok is false when a sample throws, which only the first round
     * can do, so no tree is kept then. F ends equal to what predict
     * computes for the training rows.
     */
    method Boost(X: seq<seq<real>>, y: seq<real>, init: real, e: Engine)
      returns (grown: seq<Node>, ghost builts: seq<Layout>, F: seq<real>, ok: bool)
      requires Shaped(X, nFeatures) && |X| == nSamples && |y| == nSamples && Sound(e)
      ensures ok <==> !Throws(nSamples, nFeatures)
      ensures |grown| == |builts| && RootsBelow(grown, nFeatures)
      ensures !ok ==> grown == []
      ensures ok ==> |grown| == (if nEstimators > 0 then nEstimators else 0)
      ensures ok ==> AllXBoosted(grown, builts, X, y, init, learningRate, Lim(), subsample, nFeatures)
      ensures ok ==> F == Predictions(init, learningRate, grown, X, nFeatures)
    {
      grown, builts := [], [];
      F := seq(|X|, _ => init);
      var next := 0;
      var iter := 0;
      while iter < nEstimators
        invariant 0 <= iter && (iter == 0 || iter <= nEstimators) && |grown| == |builts| == iter
        invariant iter > 0 ==> !Throws(nSamples, nFeatures)
        invariant RootsBelow(grown, nFeatures)
        invariant AllXBoosted(grown, builts, X, y, init, learningRate, Lim(), subsample, nFeatures)
        invariant F == Predictions(init, learningRate, grown, X, nFeatures)
      {
        var root, b, G, built, afterTree := Round(X, y, F, e, next);
        if !built {
          return grown, builts, F, false;
        }
        AllXBoostedAppend(grown, builts, root, b, X, y, init, learningRate, Lim(), subsample, nFeatures, Gradients(F, y));
        PredictionsAppend(init, learningRate, grown, root, X, nFeatures, F, G);
        grown, builts, F, next := grown + [root], builts + [b], G, afterTree;
        iter := iter + 1;
      }
      ok := true;
    }

    /** One round of boosting: the gradients of the running predictions F,
        a row sample, a tree grown on them, and F moved by learningRate
        times the tree; ok is false when a sample size throws. */
    method Round(X: seq<seq<real>>, y: seq<real>, F: seq<real>, e: Engine, next: nat)
      returns (root: Node, ghost b: Layout, G: seq<real>, ok: bool, next': nat)
      requires Shaped(X, nFeatures) && |X| == nSamples && |y| == nSamples && |F| == nSamples && Sound(e)
      ensures ok <==> !RoundThrows(nSamples, nFeatures)
      ensures ok ==> XGrown(root, b, X, Gradients(F, y), 0, Lim(), nFeatures) && FeaturesBelow(root, nFeatures)
      ensures ok ==> Sampled(b.samples, |X|, subsample)
      ensures ok ==> Moved(G, F, X, learningRate, root)
    {
      var gradients := Gradients(F, y);
      var samples, sampled, afterRows := SampleIndices(e, next, nSamples, subsample);
      if !sampled {
        return Null, LeafAt([], []), F, false, afterRows;
      }
      G := F;
      root, b, ok, next' := BuildTree(X, gradients, samples, 0, e, afterRows);
      if !ok {
        return;
      }
      G := AddScaledTree(F, X, root);
    }

    /**
     * fit: false, with nothing changed, when X and y differ in their number
     * of rows. Otherwise the shape, the names and the target mean are
     * recorded and the trees cleared; then the trees are boosted (builts:
     * the samples and columns each was grown from), the feature importance
     * computed and the model marked fitted. When a sample size throws, fit
     * returns false with no trees and the fitted flag and importance map
     * as they were.
     */
    method Fit(X: seq<seq<real>>, cols: nat, y: seq<real>, variableNames: seq<string>, targetName: string, e: Engine)
      returns (ok: bool, ghost builts: seq<Layout>)
      requires Shaped(X, cols) && Sound(e) && Valid()
      modifies this
      ensures Settings() == old(Settings()) && Valid()
      ensures ok <==> |X| == |y| && !Throws(|X|, cols)
      ensures |X| != |y| ==> unchanged(this)
      ensures |X| == |y| ==> nSamples == |X| && nFeatures == cols && initialPrediction == TargetMean(y)
      ensures |X| == |y| ==> names == InputNames(variableNames, cols) && target == TargetName(targetName)
      ensures |X| == |y| && !ok ==> trees == [] && isFitted == old(isFitted) && importanceScores == old(importanceScores)
      ensures ok ==> isFitted && |trees| == |builts| == (if nEstimators > 0 then nEstimators else 0)
      ensures ok ==> AllXBoosted(trees, builts, X, y, initialPrediction, learningRate, Lim(), subsample, nFeatures)
      ensures ok ==> importanceScores == ImportanceScores(names, Counts(trees, nFeatures), nFeatures)
    {
      if |X| != |y| {
        return false, [];
      }
      var init := CalculateMean(y, Iota(|y|));
      Begin(|X|, cols, InputNames(variableNames, cols), TargetName(targetName), init);
      var grown, F;
      grown, builts, F, ok := Boost(X, y, init, e);
      if !ok {
        return;
      }
      var scores := XCalculateFeatureImportance(names, grown, nFeatures);
      Finish(grown, scores);
    }

    /** The first part of fit: the shape, the names, the initial prediction,
        and the trees cleared. */
    method Begin(m: nat, n: nat, newNames: seq<string>, newTarget: string, init: real)
      modifies this
      ensures Settings() == old(Settings())
      ensures nSamples == m && nFeatures == n && names == newNames && target == newTarget
      ensures initialPrediction == init && trees == []
      ensures isFitted == old(isFitted) && importanceScores == old(importanceScores)
    {
      nSamples, nFeatures, names, target := m, n, newNames, newTarget;
      initialPrediction, trees := init, [];
    }

    /** The end of a fit: the trees, the importance map, and the model
        marked fitted. */
    method Finish(grown: seq<Node>, scores: map<string, real>)
      modifies this
      ensures Settings() == old(Settings())
      ensures trees == grown && importanceScores == scores && isFitted
      ensures nSamples == old(nSamples) && nFeatures == old(nFeatures) && names == old(names) && target == old(target)
      ensures initialPrediction == old(initialPrediction)
    {
      trees, importanceScores, isFitted := grown, scores, true;
    }

    /** predictAllTrees: the initial prediction for every row, then
        learningRate times each tree's prediction added tree by tree. */
    method PredictAllTrees(X: seq<seq<real>>) returns (predictions: seq<real>)
      requires Valid() && Shaped(X, nFeatures)
      ensures predictions == Predictions(initialPrediction, learningRate, trees, X, nFeatures)
    {
      var init := initialPrediction;
      predictions := seq(|X|, _ => init);
      var t := 0;
      while t < |trees|
        invariant 0 <= t <= |trees|
        invariant predictions == Predictions(initialPrediction, learningRate, trees[..t], X, nFeatures)
      {
        var G := AddScaledTree(predictions, X, trees[t]);
        assert trees[..t + 1] == trees[..t] + [trees[t]];
        PredictionsAppend(init, learningRate, trees[..t], trees[t], X, nFeatures, predictions, G);
        predictions := G;
        t := t + 1;
      }
      assert trees[..t] == trees;
    }

    /**
     * predict: a runtime_error before fit, an invalid_argument when X does
     * not have the training number of columns, otherwise predictAllTrees.
     */
    method Predict(X: seq<seq<real>>, cols: nat) returns (r: Result<seq<real>>)
      requires Valid() && Shaped(X, cols)
      ensures !isFitted ==> r == Err(RuntimeError(NotFitted))
      ensures isFitted && cols != nFeatures ==> r == Err(InvalidArgument(FeatureMismatch(cols, nFeatures)))
      ensures isFitted && cols == nFeatures ==> r == Ok(Predictions(initialPrediction, learningRate, trees, X, nFeatures))
    {
      if !isFitted {
        return Err(RuntimeError(NotFitted));
      }
      if cols != nFeatures {
        return Err(InvalidArgument(FeatureMismatch(cols, nFeatures)));
      }
      var predictions := PredictAllTrees(X);
      return Ok(predictions);
    }

    /** getFeatureImportance: the normalised map once fitted. */
    method GetFeatureImportance() returns (r: Result<map<string, real>>)
      ensures !isFitted ==> r == Err(RuntimeError(NotFitted))
      ensures isFitted ==> r == Ok(importanceScores)
    {
      if !isFitted {
        return Err(RuntimeError(NotFitted));
      }
      return Ok(importanceScores);
    }

    /** getParameters: the seven hyperparameters as doubles. */
    function Parameters(): (r: map<string, real>)
      reads this
      ensures r.Keys == {"learning_rate", "max_depth", "n_estimators", "subsample", "colsample_bytree",
                         "min_child_weight", "gamma"}
      ensures r["learning_rate"] == learningRate && r["subsample"] == subsample && r["gamma"] == gamma
      ensures r["colsample_bytree"] == colsampleBytree && r["min_child_weight"] == minChildWeight as real
      ensures r["max_depth"] == maxDepth as real && r["n_estimators"] == nEstimators as real
    {
      map["learning_rate" := learningRate, "max_depth" := maxDepth as real, "n_estimators" := nEstimators as real,
          "subsample" := subsample, "colsample_bytree" := colsampleBytree,
          "min_child_weight" := minChildWeight as real, "gamma" := gamma]
    }
  }
}
