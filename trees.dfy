/**
 * The regression-tree machinery shared by the three tree ensembles
 * (random forest, gradient boosting, XGBoost): the node type and its
 * traversal, sums/means/variances over index lists, the sorted
 * (value, index) pairs a split search walks through, and the partition of
 * a node's samples at a threshold.
 */
module Trees {

  // ---------------------------------------------------------------------
  // Nodes and traversal
  // ---------------------------------------------------------------------

  /** A tree node. `Null` is an absent child pointer: the ensembles never
      grow one, but traversal tolerates it and yields 0. */
  datatype Node =
    | Null
    | Leaf(output: real)
    | Split(feature: nat, threshold: real, left: Node, right: Node)

  /** Number of splits on the longest root-to-leaf path. */
  function Depth(node: Node): nat
  {
    match node
    case Split(_, _, l, r) => 1 + (if Depth(l) < Depth(r) then Depth(r) else Depth(l))
    case _ => 0
  }

  /** Every split of the tree tests a feature below `n`. */
  predicate FeaturesBelow(node: Node, n: nat)
  {
    match node
    case Split(f, _, l, r) => f < n && FeaturesBelow(l, n) && FeaturesBelow(r, n)
    case _ => true
  }

  /** The values a traversal can end on: every leaf output, and 0 for a
      null child, left to right. */
  function Outputs(node: Node): seq<real>
  {
    match node
    case Null => [0.0]
    case Leaf(v) => [v]
    case Split(_, _, l, r) => Outputs(l) + Outputs(r)
  }

  /** Traversal: 0 for a null node, the output of a leaf, otherwise the left
      child when the tested feature is at most the threshold and the right
      child when it is above. */
  function PredictTree(x: seq<real>, node: Node): (r: real)
    requires FeaturesBelow(node, |x|)
    ensures r in Outputs(node)
  {
    match node
    case Null => 0.0
    case Leaf(v) => v
    case Split(f, t, l, rt) =>
      if x[f] <= t then PredictTree(x, l) else PredictTree(x, rt)
  }

  /** One test on a root-to-leaf path. */
  datatype Test = AtMost(feature: nat, threshold: real) | Above(feature: nat, threshold: real)

  predicate Passes(x: seq<real>, t: Test)
  {
    t.feature < |x| &&
    match t
    case AtMost(f, v) => x[f] <= v
    case Above(f, v) => x[f] > v
  }

  predicate PassesAll(x: seq<real>, tests: seq<Test>)
  {
    forall i :: 0 <= i < |tests| ==> Passes(x, tests[i])
  }

  /** A cell of the partition a tree induces on the feature space: the tests
      on the path to one leaf, and the value predicted there. */
  datatype Region = Region(tests: seq<Test>, output: real)

  function Guard(t: Test, rs: seq<Region>): (r: seq<Region>)
    ensures |r| == |rs|
    ensures forall i :: 0 <= i < |rs| ==> r[i] == Region([t] + rs[i].tests, rs[i].output)
  {
    seq(|rs|, i requires 0 <= i < |rs| => Region([t] + rs[i].tests, rs[i].output))
  }

  /** The regions of a tree, one per leaf (or null child), left to right. */
  function Regions(node: Node): seq<Region>
  {
    match node
    case Null => [Region([], 0.0)]
    case Leaf(v) => [Region([], v)]
    case Split(f, t, l, r) => Guard(AtMost(f, t), Regions(l)) + Guard(Above(f, t), Regions(r))
  }

  /** Routing consistency, existence half: the input lies in a region of the
      tree whose value is exactly what traversal predicts. */
  lemma {:induction false} PredictionIsRegionValue(x: seq<real>, node: Node)
    requires FeaturesBelow(node, |x|)
    ensures exists i :: 0 <= i < |Regions(node)| && PassesAll(x, Regions(node)[i].tests)
                        && Regions(node)[i].output == PredictTree(x, node)
  {
    match node
    case Null =>
      assert PassesAll(x, Regions(node)[0].tests);
    case Leaf(v) =>
      assert PassesAll(x, Regions(node)[0].tests);
    case Split(f, t, l, r) =>
      if x[f] <= t {
        PredictionIsRegionValue(x, l);
        var i :| 0 <= i < |Regions(l)| && PassesAll(x, Regions(l)[i].tests) && Regions(l)[i].output == PredictTree(x, l);
        LeftRegion(x, f, t, l, r, i);
      } else {
        PredictionIsRegionValue(x, r);
        var i :| 0 <= i < |Regions(r)| && PassesAll(x, Regions(r)[i].tests) && Regions(r)[i].output == PredictTree(x, r);
        RightRegion(x, f, t, l, r, i);
      }
  }

  /** A region of the left subtree, guarded by its split's test, is a region of the split. */
  lemma LeftRegion(x: seq<real>, f: nat, t: real, l: Node, r: Node, i: nat)
    requires f < |x| && x[f] <= t && i < |Regions(l)| && PassesAll(x, Regions(l)[i].tests)
    ensures i < |Regions(Split(f, t, l, r))| && PassesAll(x, Regions(Split(f, t, l, r))[i].tests)
    ensures Regions(Split(f, t, l, r))[i].output == Regions(l)[i].output
  {
    GuardedPasses(x, AtMost(f, t), Regions(l), i);
    assert Regions(Split(f, t, l, r))[i] == Guard(AtMost(f, t), Regions(l))[i];
  }

  /** A region of the right subtree, guarded by its split's test, is a region of the split. */
  lemma RightRegion(x: seq<real>, f: nat, t: real, l: Node, r: Node, i: nat)
    requires f < |x| && x[f] > t && i < |Regions(r)| && PassesAll(x, Regions(r)[i].tests)
    ensures |Regions(l)| + i < |Regions(Split(f, t, l, r))|
    ensures PassesAll(x, Regions(Split(f, t, l, r))[|Regions(l)| + i].tests)
    ensures Regions(Split(f, t, l, r))[|Regions(l)| + i].output == Regions(r)[i].output
  {
    GuardedPasses(x, Above(f, t), Regions(r), i);
    assert Regions(Split(f, t, l, r))[|Regions(l)| + i] == Guard(Above(f, t), Regions(r))[i];
  }

  lemma GuardedPasses(x: seq<real>, t: Test, rs: seq<Region>, i: nat)
    requires i < |rs|
    ensures PassesAll(x, Guard(t, rs)[i].tests) <==> Passes(x, t) && PassesAll(x, rs[i].tests)
  {
    var ts := Guard(t, rs)[i].tests;
    assert ts == [t] + rs[i].tests;
    if Passes(x, t) && PassesAll(x, rs[i].tests) {
      forall k | 0 <= k < |ts| ensures Passes(x, ts[k]) {
        if k > 0 { assert ts[k] == rs[i].tests[k - 1]; }
      }
    }
    if PassesAll(x, ts) {
      assert Passes(x, ts[0]);
      forall k | 0 <= k < |rs[i].tests| ensures Passes(x, rs[i].tests[k]) {
        assert rs[i].tests[k] == ts[k + 1];
      }
    }
  }

  /** Routing consistency, uniqueness half: no input lies in two regions. */
  lemma {:induction false} RegionsDisjoint(x: seq<real>, node: Node, i: nat, j: nat)
    requires i < j < |Regions(node)|
    ensures !(PassesAll(x, Regions(node)[i].tests) && PassesAll(x, Regions(node)[j].tests))
  {
    match node
    case Null =>
    case Leaf(_) =>
    case Split(f, t, l, r) =>
      var rl, rr := Regions(l), Regions(r);
      var gl, gr := Guard(AtMost(f, t), rl), Guard(Above(f, t), rr);
      var all := Regions(node);
      if j < |rl| {
        assert all[i] == gl[i] && all[j] == gl[j];
        GuardedPasses(x, AtMost(f, t), rl, i);
        GuardedPasses(x, AtMost(f, t), rl, j);
        RegionsDisjoint(x, l, i, j);
      } else if i < |rl| {
        assert all[i] == gl[i] && all[j] == gr[j - |rl|];
        GuardedPasses(x, AtMost(f, t), rl, i);
        GuardedPasses(x, Above(f, t), rr, j - |rl|);
      } else {
        assert all[i] == gr[i - |rl|] && all[j] == gr[j - |rl|];
        GuardedPasses(x, Above(f, t), rr, i - |rl|);
        GuardedPasses(x, Above(f, t), rr, j - |rl|);
        RegionsDisjoint(x, r, i - |rl|, j - |rl|);
      }
  }

  // ---------------------------------------------------------------------
  // Sums, means and variances over index lists
  // ---------------------------------------------------------------------

  /** Every index in `idx` addresses an element of a vector of length `n`. */
  predicate InRange(idx: seq<nat>, n: nat)
  {
    forall k :: 0 <= k < |idx| ==> idx[k] < n
  }

  /** y[i]; the specification functions below read 0 past the end, which
      the methods never do. */
  function At(y: seq<real>, i: nat): real
  {
    if i < |y| then y[i] else 0.0
  }

  /** y[idx[0]] + ... + y[idx[|idx|-1]], accumulated in list order. */
  function Sum(y: seq<real>, idx: seq<nat>): real
  {
    if idx == [] then 0.0 else Sum(y, idx[..|idx| - 1]) + At(y, idx[|idx| - 1])
  }

  /** The mean of the indexed values; 0 for an empty list. */
  function Mean(y: seq<real>, idx: seq<nat>): real
  {
    if idx == [] then 0.0 else Sum(y, idx) / |idx| as real
  }

  /** Sum of squared deviations of the indexed values from `m`. */
  function SquaredDeviation(y: seq<real>, idx: seq<nat>, m: real): real
  {
    if idx == [] then 0.0
    else SquaredDeviation(y, idx[..|idx| - 1], m) + (At(y, idx[|idx| - 1]) - m) * (At(y, idx[|idx| - 1]) - m)
  }

  /** The population variance of the indexed values; 0 for an empty list. */
  function Variance(y: seq<real>, idx: seq<nat>): real
  {
    if idx == [] then 0.0 else SquaredDeviation(y, idx, Mean(y, idx)) / |idx| as real
  }

  /** The mean of values that all lie in [lo, hi] lies in [lo, hi]. */
  lemma {:induction false} SumBetween(y: seq<real>, idx: seq<nat>, lo: real, hi: real)
    requires forall k :: 0 <= k < |idx| ==> lo <= At(y, idx[k]) <= hi
    ensures |idx| as real * lo <= Sum(y, idx) <= |idx| as real * hi
  {
    if idx != [] {
      SumBetween(y, idx[..|idx| - 1], lo, hi);
    }
  }

  lemma MeanBetween(y: seq<real>, idx: seq<nat>, lo: real, hi: real)
    requires idx != []
    requires forall k :: 0 <= k < |idx| ==> lo <= At(y, idx[k]) <= hi
    ensures lo <= Mean(y, idx) <= hi
  {
    SumBetween(y, idx, lo, hi);
    DivideBounds(Sum(y, idx), |idx| as real, lo, hi);
  }

  lemma DivideBounds(s: real, n: real, lo: real, hi: real)
    requires n > 0.0 && lo * n <= s <= hi * n
    ensures lo <= s / n <= hi
  {
    var q := s / n;
    assert q * n == s;
    assert (q - lo) * n >= 0.0;
    assert (hi - q) * n >= 0.0;
  }

  lemma {:induction false} SquaredDeviationNonNegative(y: seq<real>, idx: seq<nat>, m: real)
    ensures SquaredDeviation(y, idx, m) >= 0.0
  {
    if idx != [] {
      SquaredDeviationNonNegative(y, idx[..|idx| - 1], m);
      var d := At(y, idx[|idx| - 1]) - m;
      assert d * d >= 0.0;
    }
  }

  lemma VarianceNonNegative(y: seq<real>, idx: seq<nat>)
    ensures Variance(y, idx) >= 0.0
  {
    if idx != [] {
      SquaredDeviationNonNegative(y, idx, Mean(y, idx));
    }
  }

  /** calculateMean: one accumulating pass, 0 for an empty list. */
  method CalculateMean(y: seq<real>, idx: seq<nat>) returns (m: real)
    requires InRange(idx, |y|)
    ensures m == Mean(y, idx)
  {
    if |idx| == 0 {
      return 0.0;
    }
    var sum := 0.0;
    var k := 0;
    while k < |idx|
      invariant 0 <= k <= |idx|
      invariant sum == Sum(y, idx[..k])
    {
      assert idx[..k + 1][..k] == idx[..k];
      sum := sum + y[idx[k]];
      k := k + 1;
    }
    assert idx[..k] == idx;
    m := sum / |idx| as real;
  }

  /** calculateVariance (random forest) and calculateMSE (gradient
      boosting): the mean, then the mean squared deviation from it. */
  method CalculateVariance(y: seq<real>, idx: seq<nat>) returns (v: real)
    requires InRange(idx, |y|)
    ensures v == Variance(y, idx)
  {
    if |idx| == 0 {
      return 0.0;
    }
    var mean := CalculateMean(y, idx);
    var sq := 0.0;
    var k := 0;
    while k < |idx|
      invariant 0 <= k <= |idx|
      invariant sq == SquaredDeviation(y, idx[..k], mean)
    {
      assert idx[..k + 1][..k] == idx[..k];
      var diff := y[idx[k]] - mean;
      sq := sq + diff * diff;
      k := k + 1;
    }
    assert idx[..k] == idx;
    v := sq / |idx| as real;
  }

  // ---------------------------------------------------------------------
  // Sorted (value, sample) pairs
  // ---------------------------------------------------------------------

  type Pair = (real, nat)

  /** std::pair's lexicographic order: by feature value, then by sample. */
  predicate PairLe(a: Pair, b: Pair)
  {
    a.0 < b.0 || (a.0 == b.0 && a.1 <= b.1)
  }

  predicate SortedPairs(s: seq<Pair>)
  {
    forall i, j :: 0 <= i < j < |s| ==> PairLe(s[i], s[j])
  }

  function InsertPair(p: Pair, s: seq<Pair>): (r: seq<Pair>)
    ensures |r| == |s| + 1
  {
    if s == [] then [p]
    else if PairLe(p, s[0]) then [p] + s
    else [s[0]] + InsertPair(p, s[1..])
  }

  /** Every pair of s is at least q. */
  ghost predicate AllFrom(q: Pair, s: seq<Pair>)
  {
    forall k :: 0 <= k < |s| ==> PairLe(q, s[k])
  }

  lemma {:induction false} InsertPairFrom(q: Pair, p: Pair, s: seq<Pair>)
    requires PairLe(q, p) && AllFrom(q, s)
    ensures AllFrom(q, InsertPair(p, s))
  {
    if s != [] && !PairLe(p, s[0]) {
      InsertPairFrom(q, p, s[1..]);
    }
  }

  lemma {:induction false} InsertPairSorted(p: Pair, s: seq<Pair>)
    requires SortedPairs(s)
    ensures SortedPairs(InsertPair(p, s))
  {
    if s != [] && !PairLe(p, s[0]) {
      InsertPairSorted(p, s[1..]);
      InsertPairFrom(s[0], p, s[1..]);
    }
  }

  lemma {:induction false} InsertPairMultiset(p: Pair, s: seq<Pair>)
    ensures multiset(InsertPair(p, s)) == multiset(s) + multiset{p}
  {
    if s != [] && !PairLe(p, s[0]) {
      InsertPairMultiset(p, s[1..]);
      assert s == [s[0]] + s[1..];
    }
  }

  /** The arrangement std::sort produces: insertion into a sorted list. */
  function SortPairs(s: seq<Pair>): (r: seq<Pair>)
    ensures |r| == |s|
  {
    if s == [] then [] else InsertPair(s[0], SortPairs(s[1..]))
  }

  /** std::sort's promise: the result is ordered and a permutation. */
  lemma {:induction false} SortPairsFacts(s: seq<Pair>)
    ensures SortedPairs(SortPairs(s))
    ensures multiset(SortPairs(s)) == multiset(s)
  {
    if s != [] {
      SortPairsFacts(s[1..]);
      InsertPairSorted(s[0], SortPairs(s[1..]));
      InsertPairMultiset(s[0], SortPairs(s[1..]));
      assert s == [s[0]] + s[1..];
    }
  }

  /** The head of a sorted list is its least element. */
  lemma SortedHeadLeast(a: seq<Pair>, x: Pair)
    requires SortedPairs(a) && x in multiset(a)
    ensures PairLe(a[0], x)
  {
    var i :| 0 <= i < |a| && a[i] == x;
    assert i == 0 || PairLe(a[0], a[i]);
  }

  lemma TailMultiset(a: seq<Pair>)
    requires a != []
    ensures multiset(a[1..]) == multiset(a) - multiset{a[0]}
  {
    assert a == [a[0]] + a[1..];
  }

  /** Pairs are totally ordered, so a sorted arrangement of a list is unique:
      whatever algorithm std::sort runs, its output is SortPairs. */
  lemma {:induction false} SortedArrangementUnique(a: seq<Pair>, b: seq<Pair>)
    requires SortedPairs(a) && SortedPairs(b) && multiset(a) == multiset(b)
    ensures a == b
  {
    if a != [] {
      assert |a| == |multiset(a)| == |b|;
      SortedHeadLeast(a, b[0]);
      SortedHeadLeast(b, a[0]);
      assert a[0] == b[0];
      TailMultiset(a);
      TailMultiset(b);
      SortedArrangementUnique(a[1..], b[1..]);
      assert a == [a[0]] + a[1..];
      assert b == [b[0]] + b[1..];
    }
  }

  /** The second components (sample indices) of a pair list. */
  function Seconds(s: seq<Pair>): (r: seq<nat>)
    ensures |r| == |s|
    ensures forall k :: 0 <= k < |s| ==> r[k] == s[k].1
  {
    seq(|s|, k requires 0 <= k < |s| => s[k].1)
  }

  lemma SecondsAppend(a: seq<Pair>, b: seq<Pair>)
    ensures Seconds(a + b) == Seconds(a) + Seconds(b)
  {
  }

  lemma SecondsSnoc(A: seq<Pair>)
    requires A != []
    ensures Seconds(A) == Seconds(A[..|A| - 1]) + [A[|A| - 1].1]
  {
  }

  lemma {:induction false} InsertPairSeconds(p: Pair, s: seq<Pair>)
    ensures multiset(Seconds(InsertPair(p, s))) == multiset(Seconds(s)) + multiset{p.1}
  {
    if s == [] {
    } else if PairLe(p, s[0]) {
      assert Seconds([p] + s) == [p.1] + Seconds(s);
    } else {
      InsertPairSeconds(p, s[1..]);
      assert Seconds([s[0]] + InsertPair(p, s[1..])) == [s[0].1] + Seconds(InsertPair(p, s[1..]));
      assert Seconds(s) == [s[0].1] + Seconds(s[1..]);
    }
  }

  /** Sorting moves pairs around but keeps the multiset of samples. */
  lemma {:induction false} SortPairsSeconds(s: seq<Pair>)
    ensures multiset(Seconds(SortPairs(s))) == multiset(Seconds(s))
  {
    if s != [] {
      SortPairsSeconds(s[1..]);
      InsertPairSeconds(s[0], SortPairs(s[1..]));
      assert Seconds(s) == [s[0].1] + Seconds(s[1..]);
    }
  }

  /** X[s][f], read as 0 outside the matrix (the methods never read there). */
  function Value(X: seq<seq<real>>, s: nat, f: nat): real
  {
    if s < |X| && f < |X[s]| then X[s][f] else 0.0
  }

  /** Every sample row of X has a column f. */
  predicate Readable(X: seq<seq<real>>, samples: seq<nat>, f: nat)
  {
    forall k :: 0 <= k < |samples| ==> samples[k] < |X| && f < |X[samples[k]]|
  }

  /** (X[s][f], s) for every sample s, in sample order. */
  function ValuePairs(X: seq<seq<real>>, samples: seq<nat>, f: nat): (r: seq<Pair>)
    ensures |r| == |samples|
    ensures forall k :: 0 <= k < |samples| ==> r[k] == (Value(X, samples[k], f), samples[k])
  {
    seq(|samples|, k requires 0 <= k < |samples| => (Value(X, samples[k], f), samples[k]))
  }

  /** The list a split search walks for feature f: the value pairs sorted. */
  function SortedByFeature(X: seq<seq<real>>, samples: seq<nat>, f: nat): (r: seq<Pair>)
    ensures |r| == |samples|
  {
    SortPairs(ValuePairs(X, samples, f))
  }

  /** P holds the samples' own (value, index) pairs, one per sample. */
  ghost predicate PairsOf(P: seq<Pair>, X: seq<seq<real>>, samples: seq<nat>, f: nat)
  {
    |P| == |samples| && multiset(Seconds(P)) == multiset(samples)
    && forall k :: 0 <= k < |P| ==> P[k].1 in samples && P[k].0 == Value(X, P[k].1, f)
  }

  lemma SortedByFeatureFrom(X: seq<seq<real>>, samples: seq<nat>, f: nat)
    ensures SortedPairs(SortedByFeature(X, samples, f))
    ensures PairsOf(SortedByFeature(X, samples, f), X, samples, f)
  {
    var V := ValuePairs(X, samples, f);
    var P := SortedByFeature(X, samples, f);
    SortPairsFacts(V);
    assert |P| == |multiset(P)| == |multiset(V)| == |V|;
    SortPairsSeconds(V);
    assert Seconds(V) == samples;
    forall k | 0 <= k < |P| ensures P[k].1 in samples && P[k].0 == Value(X, P[k].1, f)
    {
      assert P[k] in multiset(V);
      var m :| 0 <= m < |V| && V[m] == P[k];
    }
  }

  // ---------------------------------------------------------------------
  // The partition of a node's samples at a threshold
  // ---------------------------------------------------------------------

  /** The samples whose value is at most v, in list order (tempLeftIndices). */
  function Lower(P: seq<Pair>, v: real): seq<nat>
  {
    if P == [] then []
    else Lower(P[..|P| - 1], v) + (if P[|P| - 1].0 <= v then [P[|P| - 1].1] else [])
  }

  /** The samples whose value is above v, in list order (tempRightIndices). */
  function Upper(P: seq<Pair>, v: real): seq<nat>
  {
    if P == [] then []
    else Upper(P[..|P| - 1], v) + (if P[|P| - 1].0 <= v then [] else [P[|P| - 1].1])
  }

  lemma {:induction false} LowerUpperAppend(A: seq<Pair>, B: seq<Pair>, v: real)
    ensures Lower(A + B, v) == Lower(A, v) + Lower(B, v)
    ensures Upper(A + B, v) == Upper(A, v) + Upper(B, v)
  {
    if B != [] {
      var B' := B[..|B| - 1];
      assert (A + B)[..|A + B| - 1] == A + B';
      LowerUpperAppend(A, B', v);
    } else {
      assert A + B == A;
    }
  }

  lemma {:induction false} AllAtMost(A: seq<Pair>, v: real)
    requires forall k :: 0 <= k < |A| ==> A[k].0 <= v
    ensures Lower(A, v) == Seconds(A) && Upper(A, v) == []
  {
    if A != [] {
      var A' := A[..|A| - 1];
      AllAtMost(A', v);
      SecondsSnoc(A);
    }
  }

  lemma {:induction false} AllAbove(A: seq<Pair>, v: real)
    requires forall k :: 0 <= k < |A| ==> A[k].0 > v
    ensures Lower(A, v) == [] && Upper(A, v) == Seconds(A)
  {
    if A != [] {
      var A' := A[..|A| - 1];
      AllAbove(A', v);
      SecondsSnoc(A);
    }
  }

  /** When the list falls into a prefix at most v and a suffix above it, the
      two sides are exactly that prefix and that suffix. */
  lemma LowerUpperCut(P: seq<Pair>, v: real, m: nat)
    requires m <= |P|
    requires forall k :: 0 <= k < m ==> P[k].0 <= v
    requires forall k :: m <= k < |P| ==> P[k].0 > v
    ensures Lower(P, v) == Seconds(P[..m])
    ensures Upper(P, v) == Seconds(P[m..])
  {
    assert P == P[..m] + P[m..];
    LowerUpperAppend(P[..m], P[m..], v);
    AllAtMost(P[..m], v);
    AllAbove(P[m..], v);
  }

  /** Position j of a sorted list is a candidate cut: the value changes
      after it and each side keeps at least minLeaf samples. */
  predicate IsCandidate(P: seq<Pair>, j: int, minLeaf: int)
  {
    0 <= j < |P| - 1 && P[j].0 != P[j + 1].0
    && |Lower(P, P[j].0)| >= minLeaf && |Upper(P, P[j].0)| >= minLeaf
  }

  /** Variance reduction of a cut: the node's variance minus the children's
      variances weighted by their share of the node's samples. */
  function CutScore(y: seq<real>, samples: seq<nat>, left: seq<nat>, right: seq<nat>): real
    requires samples != []
  {
    Reduction(Variance(y, samples), |left|, Variance(y, left), |right|, Variance(y, right), |samples|)
  }

  /** nodeVariance - (leftSize * leftVariance + rightSize * rightVariance) / nodeSize */
  function Reduction(node: real, leftSize: nat, left: real, rightSize: nat, right: real, size: nat): real
    requires size > 0
  {
    node - (leftSize as real * left + rightSize as real * right) / size as real
  }

  function CandidateScore(y: seq<real>, samples: seq<nat>, P: seq<Pair>, j: int): real
    requires samples != [] && 0 <= j < |P|
  {
    CutScore(y, samples, Lower(P, P[j].0), Upper(P, P[j].0))
  }

  /** The best split found so far, as findBestSplit's out-parameters:
      feature -1 while there is none. */
  datatype Best = Best(feature: int, split: real, score: real, left: seq<nat>, right: seq<nat>)

  const NoSplit := Best(-1, 0.0, 0.0, [], [])

  /** What findBestSplit records for candidate j of feature f: the
      midpoint of the values either side of the cut, the score and the two
      sample lists. */
  function CandidateBest(y: seq<real>, samples: seq<nat>, P: seq<Pair>, j: int, f: nat): Best
    requires samples != [] && 0 <= j < |P| - 1
  {
    Best(f, (P[j].0 + P[j + 1].0) / 2.0, CandidateScore(y, samples, P, j),
         Lower(P, P[j].0), Upper(P, P[j].0))
  }

  /** In a sorted list, a value change after position j cuts it into the
      prefix up to j (values at most P[j].0) and the rest (values at least
      P[j+1].0). */
  lemma SortedCut(P: seq<Pair>, j: int)
    requires SortedPairs(P) && 0 <= j < |P| - 1 && P[j].0 != P[j + 1].0
    ensures P[j].0 < P[j + 1].0
    ensures Lower(P, P[j].0) == Seconds(P[..j + 1]) && Upper(P, P[j].0) == Seconds(P[j + 1..])
    ensures forall k :: 0 <= k <= j ==> P[k].0 <= P[j].0
    ensures forall k :: j + 1 <= k < |P| ==> P[k].0 >= P[j + 1].0
  {
    SortedSides(P, j);
    LowerUpperCut(P, P[j].0, j + 1);
  }

  lemma SortedSides(P: seq<Pair>, j: int)
    requires SortedPairs(P) && 0 <= j < |P| - 1 && P[j].0 != P[j + 1].0
    ensures P[j].0 < P[j + 1].0
    ensures forall k :: 0 <= k <= j ==> P[k].0 <= P[j].0
    ensures forall k :: j + 1 <= k < |P| ==> P[k].0 >= P[j + 1].0
  {
    assert PairLe(P[j], P[j + 1]);
    forall k | 0 <= k <= j ensures P[k].0 <= P[j].0 {
      if k < j { assert PairLe(P[k], P[j]); }
    }
    forall k | j + 1 <= k < |P| ensures P[k].0 >= P[j + 1].0 {
      if k > j + 1 { assert PairLe(P[j + 1], P[k]); }
    }
  }

  /** The facts about a candidate cut that a tree relies on: the two sides
      partition the samples, lie strictly on either side of the midpoint,
      and hold j+1 and |samples|-j-1 samples. */
  lemma CandidateCut(P: seq<Pair>, X: seq<seq<real>>, samples: seq<nat>, f: nat, j: int)
    requires SortedPairs(P) && PairsOf(P, X, samples, f)
    requires 0 <= j < |P| - 1 && P[j].0 != P[j + 1].0
    ensures P[j].0 < (P[j].0 + P[j + 1].0) / 2.0 < P[j + 1].0
    ensures |Lower(P, P[j].0)| == j + 1 && |Upper(P, P[j].0)| == |samples| - j - 1
    ensures multiset(Lower(P, P[j].0) + Upper(P, P[j].0)) == multiset(samples)
    ensures forall k :: 0 <= k < |Lower(P, P[j].0)| ==>
              Lower(P, P[j].0)[k] in samples && Value(X, Lower(P, P[j].0)[k], f) <= P[j].0
    ensures forall k :: 0 <= k < |Upper(P, P[j].0)| ==>
              Upper(P, P[j].0)[k] in samples && Value(X, Upper(P, P[j].0)[k], f) >= P[j + 1].0
  {
    SortedCut(P, j);
    CutSamples(P, X, samples, f, j);
    LowerSide(P, X, samples, f, j);
    UpperSide(P, X, samples, f, j);
  }

  /** The best split built from candidate j describes a genuine cut of
      the samples on feature f. */
  lemma CandidateBestCut(y: seq<real>, P: seq<Pair>, X: seq<seq<real>>, samples: seq<nat>, f: nat, j: int,
                         minLeaf: int)
    requires samples != [] && SortedPairs(P) && PairsOf(P, X, samples, f) && IsCandidate(P, j, minLeaf)
    ensures var b := CandidateBest(y, samples, P, j, f);
            multiset(b.left + b.right) == multiset(samples)
            && b.left != [] && b.right != [] && |b.left| >= minLeaf && |b.right| >= minLeaf
            && (forall k :: 0 <= k < |b.left| ==> b.left[k] in samples && Value(X, b.left[k], f) < b.split)
            && (forall k :: 0 <= k < |b.right| ==> b.right[k] in samples && Value(X, b.right[k], f) > b.split)
            && b.score == CutScore(y, samples, b.left, b.right)
  {
    CandidateCut(P, X, samples, f, j);
  }

  lemma CutSamples(P: seq<Pair>, X: seq<seq<real>>, samples: seq<nat>, f: nat, j: int)
    requires SortedPairs(P) && PairsOf(P, X, samples, f)
    requires 0 <= j < |P| - 1 && P[j].0 != P[j + 1].0
    ensures multiset(Lower(P, P[j].0) + Upper(P, P[j].0)) == multiset(samples)
  {
    SortedCut(P, j);
    assert P == P[..j + 1] + P[j + 1..];
    SecondsAppend(P[..j + 1], P[j + 1..]);
  }

  lemma LowerSide(P: seq<Pair>, X: seq<seq<real>>, samples: seq<nat>, f: nat, j: int)
    requires SortedPairs(P) && PairsOf(P, X, samples, f)
    requires 0 <= j < |P| - 1 && P[j].0 != P[j + 1].0
    ensures forall k :: 0 <= k < |Lower(P, P[j].0)| ==>
              Lower(P, P[j].0)[k] in samples && Value(X, Lower(P, P[j].0)[k], f) <= P[j].0
  {
    SortedCut(P, j);
    var lower := Lower(P, P[j].0);
    forall k | 0 <= k < |lower| ensures lower[k] in samples && Value(X, lower[k], f) <= P[j].0 {
      assert lower[k] == P[k].1;
    }
  }

  lemma UpperSide(P: seq<Pair>, X: seq<seq<real>>, samples: seq<nat>, f: nat, j: int)
    requires SortedPairs(P) && PairsOf(P, X, samples, f)
    requires 0 <= j < |P| - 1 && P[j].0 != P[j + 1].0
    ensures forall k :: 0 <= k < |Upper(P, P[j].0)| ==>
              Upper(P, P[j].0)[k] in samples && Value(X, Upper(P, P[j].0)[k], f) >= P[j + 1].0
  {
    SortedCut(P, j);
    var upper := Upper(P, P[j].0);
    forall k | 0 <= k < |upper| ensures upper[k] in samples && Value(X, upper[k], f) >= P[j + 1].0 {
      assert upper[k] == P[j + 1 + k].1;
    }
  }

  // ---------------------------------------------------------------------
  // findBestSplit (random forest and gradient boosting)
  // ---------------------------------------------------------------------

  /** The pushing loop that builds the (value, sample) pairs of a feature. */
  method CollectPairs(X: seq<seq<real>>, samples: seq<nat>, f: nat) returns (pairs: seq<Pair>)
    requires Readable(X, samples, f)
    ensures pairs == ValuePairs(X, samples, f)
  {
    pairs := [];
    var k := 0;
    while k < |samples|
      invariant 0 <= k <= |samples|
      invariant pairs == ValuePairs(X, samples[..k], f)
    {
      pairs := pairs + [(X[samples[k]][f], samples[k])];
      k := k + 1;
    }
    assert samples[..k] == samples;
  }

  /** The pushing loop that splits the sorted pairs at value v. */
  method PartitionAt(P: seq<Pair>, v: real, ghost samples: seq<nat>, ghost n: nat)
    returns (left: seq<nat>, right: seq<nat>)
    requires forall k :: 0 <= k < |P| ==> P[k].1 in samples
    requires InRange(samples, n)
    ensures left == Lower(P, v) && right == Upper(P, v)
    ensures InRange(left, n) && InRange(right, n)
  {
    left, right := [], [];
    var k := 0;
    while k < |P|
      invariant 0 <= k <= |P|
      invariant left == Lower(P[..k], v) && right == Upper(P[..k], v)
      invariant InRange(left, n) && InRange(right, n)
    {
      assert P[..k + 1][..k] == P[..k];
      if P[k].0 <= v {
        left := left + [P[k].1];
      } else {
        right := right + [P[k].1];
      }
      k := k + 1;
    }
    assert P[..k] == P;
  }

  /** Every candidate before position i scores at most `bound`. */
  ghost predicate ScoresAtMost(y: seq<real>, samples: seq<nat>, P: seq<Pair>, minLeaf: int, i: int, bound: real)
    requires samples != []
  {
    forall j :: 0 <= j < i && IsCandidate(P, j, minLeaf) ==> CandidateScore(y, samples, P, j) <= bound
  }

  lemma ScoresAtMostStep(y: seq<real>, samples: seq<nat>, P: seq<Pair>, minLeaf: int, i: int,
                         bound: real, bound': real)
    requires samples != []
    requires ScoresAtMost(y, samples, P, minLeaf, i, bound) && bound <= bound'
    requires IsCandidate(P, i, minLeaf) ==> CandidateScore(y, samples, P, i) <= bound'
    ensures ScoresAtMost(y, samples, P, minLeaf, i + 1, bound')
  {
  }

  lemma ScoresAtMostWeaken(y: seq<real>, samples: seq<nat>, P: seq<Pair>, minLeaf: int, i: int,
                           bound: real, bound': real)
    requires samples != []
    requires ScoresAtMost(y, samples, P, minLeaf, i, bound) && bound <= bound'
    ensures ScoresAtMost(y, samples, P, minLeaf, i, bound')
  {
  }

  /** No position before i is a candidate. */
  ghost predicate NoCandidateBefore(P: seq<Pair>, minLeaf: int, i: int)
  {
    forall j :: 0 <= j < i ==> !IsCandidate(P, j, minLeaf)
  }

  lemma NoCandidateScores(y: seq<real>, samples: seq<nat>, P: seq<Pair>, minLeaf: int, i: int, bound: real)
    requires samples != [] && NoCandidateBefore(P, minLeaf, i)
    ensures ScoresAtMost(y, samples, P, minLeaf, i, bound)
  {
  }

  /** What position i of the inner loop leaves as the best so far: the
      candidate there when it is the first one or scores higher. */
  function PositionStep(y: seq<real>, samples: seq<nat>, P: seq<Pair>, f: nat, minLeaf: int, i: int, best: Best): Best
    requires samples != [] && 0 <= i < |P|
  {
    if IsCandidate(P, i, minLeaf) && (best.feature == -1 || CandidateScore(y, samples, P, i) > best.score)
    then CandidateBest(y, samples, P, i, f)
    else best
  }

  /** The best so far after the inner loop has visited positions 0..i-1. */
  function ScanPositions(y: seq<real>, samples: seq<nat>, P: seq<Pair>, f: nat, minLeaf: int, best: Best, i: nat): Best
    requires samples != [] && i <= |P|
  {
    if i == 0 then best
    else PositionStep(y, samples, P, f, minLeaf, i - 1, ScanPositions(y, samples, P, f, minLeaf, best, i - 1))
  }

  /** What the best so far after positions 0..i-1 promises, relative to
      where the scan started. */
  ghost predicate ScanFacts(y: seq<real>, samples: seq<nat>, P: seq<Pair>, minLeaf: int, best: Best, next: Best, i: int)
    requires samples != []
  {
    (next.feature == -1 <==> best.feature == -1 && NoCandidateBefore(P, minLeaf, i))
    && (next.feature == -1 ==> next == best)
    && (best.feature != -1 ==> next.score >= best.score)
    && (next.feature != -1 ==> ScoresAtMost(y, samples, P, minLeaf, i, next.score))
  }

  /** Position i - 1 keeps those promises. */
  lemma PositionStepFacts(y: seq<real>, samples: seq<nat>, P: seq<Pair>, f: nat, minLeaf: int,
                          best: Best, prev: Best, i: nat)
    requires samples != [] && 0 < i <= |P|
    requires ScanFacts(y, samples, P, minLeaf, best, prev, i - 1)
    ensures ScanFacts(y, samples, P, minLeaf, best, PositionStep(y, samples, P, f, minLeaf, i - 1, prev), i)
  {
    var j := i - 1;
    var next := PositionStep(y, samples, P, f, minLeaf, j, prev);
    if IsCandidate(P, j, minLeaf) && (prev.feature == -1 || CandidateScore(y, samples, P, j) > prev.score) {
      var score := CandidateScore(y, samples, P, j);
      assert next == CandidateBest(y, samples, P, j, f) && next.score == score;
      if prev.feature == -1 {
        NoCandidateScores(y, samples, P, minLeaf, j, score);
        ScoresAtMostStep(y, samples, P, minLeaf, j, score, score);
      } else {
        ScoresAtMostStep(y, samples, P, minLeaf, j, prev.score, score);
      }
    } else {
      assert next == prev;
      if next.feature != -1 {
        ScoresAtMostStep(y, samples, P, minLeaf, j, next.score, next.score);
      }
    }
  }

  /** After positions 0..i-1 the best so far has no feature exactly when
      it started with none and no position was a candidate (and is then
      unchanged); it never scores below where it started, and no candidate
      seen scores above it. */
  lemma {:induction false} ScanPositionsFacts(y: seq<real>, samples: seq<nat>, P: seq<Pair>, f: nat, minLeaf: int,
                                              best: Best, i: nat)
    requires samples != [] && i <= |P|
    ensures ScanFacts(y, samples, P, minLeaf, best, ScanPositions(y, samples, P, f, minLeaf, best, i), i)
  {
    if i > 0 {
      var prev := ScanPositions(y, samples, P, f, minLeaf, best, i - 1);
      ScanPositionsFacts(y, samples, P, f, minLeaf, best, i - 1);
      PositionStepFacts(y, samples, P, f, minLeaf, best, prev, i);
      assert ScanPositions(y, samples, P, f, minLeaf, best, i) == PositionStep(y, samples, P, f, minLeaf, i - 1, prev);
    }
  }

  /** The best so far after the feature loop has visited features[..k]:
      the inner loop runs over positions 0..|samples|-2 of each feature's
      sorted pairs. */
  function ScanCuts(X: seq<seq<real>>, y: seq<real>, samples: seq<nat>, features: seq<nat>, minLeaf: int, k: nat): Best
    requires samples != [] && k <= |features|
  {
    if k == 0 then NoSplit
    else
      var f := features[k - 1];
      ScanPositions(y, samples, SortedByFeature(X, samples, f), f, minLeaf,
                    ScanCuts(X, y, samples, features, minLeaf, k - 1), |samples| - 1)
  }

  /** The cut findBestSplit reports over `features`: NoSplit when there is
      none, otherwise the first highest-scoring candidate in visiting order. */
  function BestCut(X: seq<seq<real>>, y: seq<real>, samples: seq<nat>, features: seq<nat>, minLeaf: int): Best
    requires samples != []
  {
    ScanCuts(X, y, samples, features, minLeaf, |features|)
  }

  /** One position i of the inner loop: skipped unless the value changes
      after it, skipped when a side would hold fewer than minLeaf samples,
      otherwise scored and taken when it is the first or beats the best. */
  method ScanPosition(y: seq<real>, samples: seq<nat>, P: seq<Pair>, f: nat, nodeVariance: real,
                      minLeaf: int, i: int, best: Best)
    returns (next: Best, took: bool)
    requires |P| == |samples| > 0 && 0 <= i < |P| - 1
    requires forall k :: 0 <= k < |P| ==> P[k].1 in samples
    requires InRange(samples, |y|)
    requires nodeVariance == Variance(y, samples)
    ensures took ==> IsCandidate(P, i, minLeaf) && next == CandidateBest(y, samples, P, i, f)
                     && (best.feature == -1 || next.score > best.score)
    ensures !took ==> next == best
                      && (IsCandidate(P, i, minLeaf) ==> best.feature != -1 && CandidateScore(y, samples, P, i) <= best.score)
    ensures next == PositionStep(y, samples, P, f, minLeaf, i, best)
  {
    next, took := best, false;
    if P[i].0 != P[i + 1].0 {
      var left, right := PartitionAt(P, P[i].0, samples, |y|);
      if !(|left| < minLeaf || |right| < minLeaf) {
        var leftVariance := CalculateVariance(y, left);
        var rightVariance := CalculateVariance(y, right);
        var score := Reduction(nodeVariance, |left|, leftVariance, |right|, rightVariance, |samples|);
        if best.feature == -1 || score > best.score {
          next := Best(f, (P[i].0 + P[i + 1].0) / 2.0, score, left, right);
          took := true;
        }
      }
    }
  }

  /** The inner loop of findBestSplit for one feature f, whose pairs in
      sorted order are P: every position followed by a different value and
      leaving at least minLeaf samples on each side is scored, and one that
      beats the best so far (or is the first) replaces it. */
  method ScanFeature(y: seq<real>, samples: seq<nat>, P: seq<Pair>, f: nat, nodeVariance: real,
                     minLeaf: int, best: Best)
    returns (next: Best, ghost improved: bool, ghost bj: int)
    requires |P| == |samples| > 0
    requires forall k :: 0 <= k < |P| ==> P[k].1 in samples
    requires InRange(samples, |y|)
    requires nodeVariance == Variance(y, samples)
    ensures improved ==> IsCandidate(P, bj, minLeaf) && next == CandidateBest(y, samples, P, bj, f)
    ensures !improved ==> next == best
    ensures next.feature == -1 <==> best.feature == -1 && NoCandidateBefore(P, minLeaf, |P|)
    ensures best.feature != -1 ==> next.score >= best.score
    ensures next.feature != -1 ==> ScoresAtMost(y, samples, P, minLeaf, |P|, next.score)
    ensures next == ScanPositions(y, samples, P, f, minLeaf, best, |P| - 1)
  {
    next, improved, bj := best, false, 0;
    var i := 0;
    while i < |P| - 1
      invariant 0 <= i <= |P| - 1
      invariant improved ==> bj < i && IsCandidate(P, bj, minLeaf) && next == CandidateBest(y, samples, P, bj, f)
      invariant !improved ==> next == best
      invariant next == ScanPositions(y, samples, P, f, minLeaf, best, i)
    {
      ghost var prev := next;
      var took;
      next, took := ScanPosition(y, samples, P, f, nodeVariance, minLeaf, i, next);
      if took {
        improved, bj := true, i;
      }
      assert ScanPositions(y, samples, P, f, minLeaf, best, i + 1) == PositionStep(y, samples, P, f, minLeaf, i, prev);
      i := i + 1;
    }
    ScanCompletes(y, samples, P, f, minLeaf, best);
  }

  /** No position of feature f's sorted pairs is a candidate cut. */
  ghost predicate NoCutOn(X: seq<seq<real>>, samples: seq<nat>, f: nat, minLeaf: int)
  {
    NoCandidateBefore(SortedByFeature(X, samples, f), minLeaf, |samples|)
  }

  /** Every candidate cut of feature f scores at most `bound`. */
  ghost predicate CutsScoreAtMost(X: seq<seq<real>>, y: seq<real>, samples: seq<nat>, f: nat, minLeaf: int, bound: real)
    requires samples != []
  {
    ScoresAtMost(y, samples, SortedByFeature(X, samples, f), minLeaf, |samples|, bound)
  }

  /** The body of findBestSplit's feature loop: collect and sort the
      (value, sample) pairs of feature f, then scan them. */
  method ScoreFeature(X: seq<seq<real>>, y: seq<real>, samples: seq<nat>, f: nat, nodeVariance: real,
                      minLeaf: int, best: Best)
    returns (next: Best, ghost improved: bool, ghost bj: int)
    requires samples != [] && InRange(samples, |y|) && Readable(X, samples, f)
    requires nodeVariance == Variance(y, samples)
    ensures improved ==> IsCandidate(SortedByFeature(X, samples, f), bj, minLeaf)
                         && next == CandidateBest(y, samples, SortedByFeature(X, samples, f), bj, f)
    ensures !improved ==> next == best
    ensures next.feature == -1 <==> best.feature == -1 && NoCutOn(X, samples, f, minLeaf)
    ensures best.feature != -1 ==> next.score >= best.score
    ensures next.feature != -1 ==> CutsScoreAtMost(X, y, samples, f, minLeaf, next.score)
    ensures next == ScanPositions(y, samples, SortedByFeature(X, samples, f), f, minLeaf, best, |samples| - 1)
  {
    var pairs := CollectPairs(X, samples, f);
    var P := SortPairs(pairs);
    SortedByFeatureFrom(X, samples, f);
    next, improved, bj := ScanFeature(y, samples, P, f, nodeVariance, minLeaf, best);
  }

  lemma CutsScoreAtMostWeaken(X: seq<seq<real>>, y: seq<real>, samples: seq<nat>, f: nat, minLeaf: int,
                              bound: real, bound': real)
    requires samples != []
    requires CutsScoreAtMost(X, y, samples, f, minLeaf, bound) && bound <= bound'
    ensures CutsScoreAtMost(X, y, samples, f, minLeaf, bound')
  {
  }

  lemma NoCutScores(X: seq<seq<real>>, y: seq<real>, samples: seq<nat>, f: nat, minLeaf: int, bound: real)
    requires samples != [] && NoCutOn(X, samples, f, minLeaf)
    ensures CutsScoreAtMost(X, y, samples, f, minLeaf, bound)
  {
  }

  /** None of the first n features has a candidate cut. */
  ghost predicate NoCutUpTo(X: seq<seq<real>>, samples: seq<nat>, features: seq<nat>, n: nat, minLeaf: int)
    requires n <= |features|
  {
    forall i :: 0 <= i < n ==> NoCutOn(X, samples, features[i], minLeaf)
  }

  /** Every candidate cut of the first n features scores at most `bound`. */
  ghost predicate AllCutsScoreAtMost(X: seq<seq<real>>, y: seq<real>, samples: seq<nat>, features: seq<nat>,
                                     n: nat, minLeaf: int, bound: real)
    requires samples != [] && n <= |features|
  {
    forall i :: 0 <= i < n ==> CutsScoreAtMost(X, y, samples, features[i], minLeaf, bound)
  }

  /** One step of the feature loop keeps the bound on all features seen so far. */
  lemma AllCutsStep(X: seq<seq<real>>, y: seq<real>, samples: seq<nat>, features: seq<nat>, n: nat,
                    minLeaf: int, previous: Best, next: Best)
    requires samples != [] && n < |features|
    requires previous.feature != -1 ==> AllCutsScoreAtMost(X, y, samples, features, n, minLeaf, previous.score)
    requires previous.feature == -1 ==> NoCutUpTo(X, samples, features, n, minLeaf)
    requires previous.feature != -1 ==> next.score >= previous.score
    requires next.feature != -1 ==> CutsScoreAtMost(X, y, samples, features[n], minLeaf, next.score)
    ensures next.feature != -1 ==> AllCutsScoreAtMost(X, y, samples, features, n + 1, minLeaf, next.score)
  {
    if next.feature != -1 {
      forall i | 0 <= i < n
        ensures CutsScoreAtMost(X, y, samples, features[i], minLeaf, next.score)
      {
        if previous.feature != -1 {
          CutsScoreAtMostWeaken(X, y, samples, features[i], minLeaf, previous.score, next.score);
        } else {
          NoCutScores(X, y, samples, features[i], minLeaf, next.score);
        }
      }
    }
  }

  /** The inner loop stops before the last position, which is never a
      candidate, so the promises hold for the whole list. */
  lemma ScanCompletes(y: seq<real>, samples: seq<nat>, P: seq<Pair>, f: nat, minLeaf: int, best: Best)
    requires samples != [] && |P| == |samples|
    ensures ScanFacts(y, samples, P, minLeaf, best, ScanPositions(y, samples, P, f, minLeaf, best, |P| - 1), |P|)
  {
    ScanPositionsFacts(y, samples, P, f, minLeaf, best, |P|);
    assert !IsCandidate(P, |P| - 1, minLeaf);
  }

  /** What the best so far after the first k features promises. */
  ghost predicate CutFacts(X: seq<seq<real>>, y: seq<real>, samples: seq<nat>, features: seq<nat>,
                           minLeaf: int, best: Best, k: nat)
    requires samples != [] && k <= |features|
  {
    (best.feature == -1 <==> NoCutUpTo(X, samples, features, k, minLeaf))
    && (best.feature == -1 ==> best == NoSplit)
    && (best.feature != -1 ==> AllCutsScoreAtMost(X, y, samples, features, k, minLeaf, best.score))
  }

  /** Feature k keeps those promises. */
  lemma FeatureStepFacts(X: seq<seq<real>>, y: seq<real>, samples: seq<nat>, features: seq<nat>,
                         minLeaf: int, prev: Best, k: nat)
    requires samples != [] && k < |features|
    requires CutFacts(X, y, samples, features, minLeaf, prev, k)
    ensures CutFacts(X, y, samples, features, minLeaf,
                     ScanPositions(y, samples, SortedByFeature(X, samples, features[k]), features[k], minLeaf,
                                   prev, |samples| - 1), k + 1)
  {
    var f := features[k];
    var P := SortedByFeature(X, samples, f);
    var next := ScanPositions(y, samples, P, f, minLeaf, prev, |P| - 1);
    ScanCompletes(y, samples, P, f, minLeaf, prev);
    AllCutsStep(X, y, samples, features, k, minLeaf, prev, next);
    assert NoCutUpTo(X, samples, features, k + 1, minLeaf)
           <==> NoCutUpTo(X, samples, features, k, minLeaf) && NoCutOn(X, samples, f, minLeaf);
  }

  /** After the first k features the best so far has no feature exactly
      when none of them has a candidate cut, is then NoSplit, and otherwise
      scores at least as high as every candidate cut of those features. */
  lemma {:induction false} ScanCutsFacts(X: seq<seq<real>>, y: seq<real>, samples: seq<nat>, features: seq<nat>,
                                         minLeaf: int, k: nat)
    requires samples != [] && k <= |features|
    ensures CutFacts(X, y, samples, features, minLeaf, ScanCuts(X, y, samples, features, minLeaf, k), k)
  {
    if k > 0 {
      ScanCutsFacts(X, y, samples, features, minLeaf, k - 1);
      FeatureStepFacts(X, y, samples, features, minLeaf, ScanCuts(X, y, samples, features, minLeaf, k - 1), k - 1);
    }
  }

  /** The feature loop of findBestSplit: the best candidate over all the
      features, found at position bj of the sorted pairs of features[bi]. */
  method ScanFeatures(X: seq<seq<real>>, y: seq<real>, samples: seq<nat>, features: seq<nat>,
                      nodeVariance: real, minLeaf: int)
    returns (best: Best, ghost bi: nat, ghost bj: int)
    requires samples != [] && InRange(samples, |y|)
    requires forall i :: 0 <= i < |features| ==> Readable(X, samples, features[i])
    requires nodeVariance == Variance(y, samples)
    ensures best.feature == -1 <==> NoCutUpTo(X, samples, features, |features|, minLeaf)
    ensures best.feature == -1 ==> best == NoSplit
    ensures best.feature != -1 ==>
              bi < |features| && IsCandidate(SortedByFeature(X, samples, features[bi]), bj, minLeaf)
              && best == CandidateBest(y, samples, SortedByFeature(X, samples, features[bi]), bj, features[bi])
    ensures best.feature != -1 ==> AllCutsScoreAtMost(X, y, samples, features, |features|, minLeaf, best.score)
    ensures best == BestCut(X, y, samples, features, minLeaf)
  {
    best := NoSplit;
    bi, bj := 0, 0;
    var fi := 0;
    while fi < |features|
      invariant 0 <= fi <= |features|
      invariant best.feature != -1 ==>
                  bi < fi && IsCandidate(SortedByFeature(X, samples, features[bi]), bj, minLeaf)
                  && best == CandidateBest(y, samples, SortedByFeature(X, samples, features[bi]), bj, features[bi])
      invariant best == ScanCuts(X, y, samples, features, minLeaf, fi)
    {
      ghost var improved, j;
      best, improved, j := ScoreFeature(X, y, samples, features[fi], nodeVariance, minLeaf, best);
      if improved {
        bi, bj := fi, j;
      }
      fi := fi + 1;
    }
    ScanCutsFacts(X, y, samples, features, minLeaf, |features|);
  }

  /** findBestSplit: over every feature in `features` and every candidate
      cut of its sorted values, the cut with the highest variance
      reduction, the first one found on ties. */
  method FindBestSplit(X: seq<seq<real>>, y: seq<real>, samples: seq<nat>, features: seq<nat>, minLeaf: int)
    returns (feature: int, split: real, score: real, decrease: real, left: seq<nat>, right: seq<nat>)
    requires samples != [] && InRange(samples, |y|)
    requires forall i :: 0 <= i < |features| ==> Readable(X, samples, features[i])
    ensures feature == -1 <==> NoCutUpTo(X, samples, features, |features|, minLeaf)
    ensures feature == -1 ==> left == [] && right == [] && split == 0.0 && decrease == 0.0
    ensures feature != -1 ==>
              0 <= feature && feature as nat in features
              && multiset(left + right) == multiset(samples)
              && left != [] && right != [] && |left| >= minLeaf && |right| >= minLeaf
              && (forall k :: 0 <= k < |left| ==> left[k] in samples && Value(X, left[k], feature) < split)
              && (forall k :: 0 <= k < |right| ==> right[k] in samples && Value(X, right[k], feature) > split)
              && decrease == score == CutScore(y, samples, left, right)
    ensures feature != -1 ==> AllCutsScoreAtMost(X, y, samples, features, |features|, minLeaf, score)
    ensures Best(feature, split, score, left, right) == BestCut(X, y, samples, features, minLeaf)
  {
    var nodeVariance := CalculateVariance(y, samples);
    var best;
    ghost var bi, bj;
    best, bi, bj := ScanFeatures(X, y, samples, features, nodeVariance, minLeaf);
    if best.feature != -1 {
      SortedByFeatureFrom(X, samples, features[bi]);
      CandidateBestCut(y, SortedByFeature(X, samples, features[bi]), X, samples, features[bi], bj, minLeaf);
    }
    feature, split, score, decrease, left, right := best.feature, best.split, best.score, best.score, best.left, best.right;
  }
}
