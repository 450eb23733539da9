/**
 * What the regression models share: the shape of Eigen matrices, the
 * variable-name defaults every fit applies, C++ numeric conversions, the
 * random engine seen as a stream of values, and the normalised
 * feature-importance map of the tree ensembles.
 */
module ModelCommon {
  import opened Strings

  // ---------------------------------------------------------------------
  // Matrices, ranges and permutations
  // ---------------------------------------------------------------------

  /** An Eigen matrix with `cols` columns, stored as its rows. */
  predicate Shaped(X: seq<seq<real>>, cols: nat)
  {
    forall r :: 0 <= r < |X| ==> |X[r]| == cols
  }

  /** std::iota over a vector of length n: 0, 1, ..., n - 1. */
  function Iota(n: nat): (r: seq<nat>)
    ensures |r| == n
    ensures forall i :: 0 <= i < n ==> r[i] == i
  {
    seq(n, i requires 0 <= i < n => i)
  }

  /** `order` is a permutation of 0..n-1: n distinct values below n. */
  predicate IsPermutation(order: seq<nat>, n: nat)
  {
    |order| == n && Distinct(order) && forall i :: 0 <= i < |order| ==> order[i] < n
  }

  /**
   * A random engine (std::mt19937 behind a distribution or std::shuffle),
   * seen as the values it yields: the k-th random operation is either
   * draw(k, n), a value of uniform_int_distribution(0, n - 1), or
   * shuffle(k, n), the order std::shuffle leaves 0..n-1 in.
   */
  datatype Engine = Engine(draw: (nat, nat) -> nat, shuffle: (nat, nat) -> seq<nat>)

  /** Draws stay in their range and shuffles are permutations. */
  ghost predicate Sound(e: Engine)
  {
    (forall k, n :: n > 0 ==> e.draw(k, n) < n)
    && (forall k, n :: IsPermutation(e.shuffle(k, n), n))
  }

  // ---------------------------------------------------------------------
  // C++ conversions
  // ---------------------------------------------------------------------

  /** static_cast<int> of a double (truncation toward zero). */
  function Truncate(r: real): (i: int)
    ensures r >= 0.0 ==> i as real <= r < i as real + 1.0
    ensures r < 0.0 ==> i as real - 1.0 < r <= i as real
  {
    if r >= 0.0 then r.Floor else -((-r).Floor)
  }

  const SizeMax: int := 0x1_0000_0000_0000_0000

  /** An int converted to size_t for a comparison with a size (64 bits). */
  function ToSize(i: int): (s: nat)
    ensures i >= 0 ==> s == i
    ensures -SizeMax / 2 <= i < 0 ==> s >= SizeMax / 2
  {
    if i >= 0 then i else (i % SizeMax)
  }

  // ---------------------------------------------------------------------
  // Variable names
  // ---------------------------------------------------------------------

  /** The stored input names of fit: the given names when there are exactly
      nFeatures of them, otherwise Variable_1..Variable_n. */
  function InputNames(given: seq<string>, n: nat): (r: seq<string>)
    ensures |r| == n
    ensures |given| == n ==> r == given
  {
    if |given| == 0 || |given| != n then NumberedNames("Variable_", 1, n) else given
  }

  /** The generated names are Variable_1..Variable_n, all different. */
  lemma InputNamesNumbered(given: seq<string>, n: nat)
    requires |given| != n
    ensures Distinct(InputNames(given, n))
    ensures forall i :: 0 <= i < n ==> InputNames(given, n)[i] == "Variable_" + NatToString(i + 1)
  {
    NumberedNamesDistinct("Variable_", 1, n);
    NumberedNamesAt("Variable_", 1, n);
  }

  /** The stored target name: "Target" in place of an empty one. */
  function TargetName(given: string): (r: string)
    ensures r != ""
    ensures given != "" ==> r == given
  {
    if given == "" then "Target" else given
  }

  // ---------------------------------------------------------------------
  // Normalised feature importance
  // ---------------------------------------------------------------------

  /** v[0] + ... + v[n-1], accumulated left to right. */
  function SumTo(v: seq<real>, n: nat): real
    requires n <= |v|
  {
    if n == 0 then 0.0 else SumTo(v, n - 1) + v[n - 1]
  }

  /** Each feature's share: its value over the total when the total is
      positive, otherwise 1/n each. */
  function Shares(values: seq<real>, n: nat): (r: seq<real>)
    requires n <= |values|
    ensures |r| == n
  {
    var total := SumTo(values, n);
    if total > 0.0 then seq(n, i requires 0 <= i < n => values[i] / total)
    else seq(n, i requires 0 <= i < n => 1.0 / n as real)
  }

  /** m with names[i] := vals[i] applied for i = 0, 1, ..., k - 1 in turn. */
  function Assigned(m: map<string, real>, names: seq<string>, vals: seq<real>, k: nat): map<string, real>
    requires k <= |names| && k <= |vals|
  {
    if k == 0 then m else Assigned(m, names, vals, k - 1)[names[k - 1] := vals[k - 1]]
  }

  function Min(a: nat, b: nat): nat { if a <= b then a else b }

  /** calculateFeatureImportance: every name starts at 0, then name i
      (for i below both n and the number of names) gets share i. */
  function ImportanceScores(names: seq<string>, values: seq<real>, n: nat): map<string, real>
    requires n <= |values|
  {
    Assigned(map name | name in names :: 0.0, names, Shares(values, n), Min(n, |names|))
  }

  lemma {:induction false} AssignedKeys(m: map<string, real>, names: seq<string>, vals: seq<real>, k: nat)
    requires k <= |names| && k <= |vals|
    requires forall i :: 0 <= i < k ==> names[i] in m
    ensures Assigned(m, names, vals, k).Keys == m.Keys
  {
    if k > 0 {
      AssignedKeys(m, names, vals, k - 1);
    }
  }

  lemma {:induction false} AssignedDistinct(m: map<string, real>, names: seq<string>, vals: seq<real>, k: nat, i: nat)
    requires k <= |names| && k <= |vals| && Distinct(names)
    requires forall j :: 0 <= j < |names| ==> names[j] in m
    ensures Assigned(m, names, vals, k).Keys == m.Keys
    ensures i < k ==> Assigned(m, names, vals, k)[names[i]] == vals[i]
    ensures k <= i < |names| && names[i] in m ==> Assigned(m, names, vals, k)[names[i]] == m[names[i]]
  {
    AssignedKeys(m, names, vals, k);
    if k > 0 {
      AssignedDistinct(m, names, vals, k - 1, i);
    }
  }

  /** The keys are exactly the input names. */
  lemma ImportanceKeys(names: seq<string>, values: seq<real>, n: nat)
    requires n <= |values|
    ensures forall name :: name in ImportanceScores(names, values, n) <==> name in names
  {
    var m := map name | name in names :: 0.0;
    AssignedKeys(m, names, Shares(values, n), Min(n, |names|));
  }

  /** With distinct names: name i < n holds its share (value over total,
      or 1/n when nothing is positive), and names past n keep 0. */
  lemma ImportanceOfName(names: seq<string>, values: seq<real>, n: nat, i: nat)
    requires n <= |values| && Distinct(names) && i < |names|
    ensures names[i] in ImportanceScores(names, values, n)
    ensures i < n && SumTo(values, n) > 0.0 ==> ImportanceScores(names, values, n)[names[i]] == values[i] / SumTo(values, n)
    ensures i < n && SumTo(values, n) <= 0.0 ==> ImportanceScores(names, values, n)[names[i]] == 1.0 / n as real
    ensures i >= n ==> ImportanceScores(names, values, n)[names[i]] == 0.0
  {
    var m := map name | name in names :: 0.0;
    var s := Shares(values, n);
    var k := Min(n, |names|);
    AssignedDistinct(m, names, s, k, i);
    var r := Assigned(m, names, s, k);
    assert ImportanceScores(names, values, n) == r;
    if i < n {
      assert r[names[i]] == s[i];
    } else {
      assert names[i] in m;
    }
  }

  lemma {:induction false} SumToScaled(v: seq<real>, w: seq<real>, t: real, k: nat)
    requires k <= |v| && k <= |w| && t != 0.0
    requires forall i :: 0 <= i < k ==> w[i] == v[i] / t
    ensures SumTo(w, k) == SumTo(v, k) / t
  {
    if k > 0 {
      SumToScaled(v, w, t, k - 1);
      assert SumTo(w, k) == SumTo(v, k - 1) / t + v[k - 1] / t;
    }
  }

  lemma {:induction false} SumToConstant(w: seq<real>, c: real, k: nat)
    requires k <= |w|
    requires forall i :: 0 <= i < k ==> w[i] == c
    ensures SumTo(w, k) == k as real * c
  {
    if k > 0 {
      SumToConstant(w, c, k - 1);
    }
  }

  /** The shares of at least one feature add up to 1. */
  lemma SharesSumToOne(values: seq<real>, n: nat)
    requires 1 <= n <= |values|
    ensures SumTo(Shares(values, n), n) == 1.0
  {
    var total := SumTo(values, n);
    var s := Shares(values, n);
    if total > 0.0 {
      SumToScaled(values, s, total, n);
    } else {
      SumToConstant(s, 1.0 / n as real, n);
    }
  }

  /** Shares are never negative when no value is. */
  lemma SharesNonNegative(values: seq<real>, n: nat, i: nat)
    requires n <= |values| && i < n
    requires forall j :: 0 <= j < n ==> values[j] >= 0.0
    ensures Shares(values, n)[i] >= 0.0
  {
  }

  /** Column i summed over the per-tree importance vectors. */
  function ColumnSum(perTree: seq<seq<real>>, i: nat): real
  {
    if perTree == [] then 0.0
    else ColumnSum(perTree[..|perTree| - 1], i) + (if i < |perTree[|perTree| - 1]| then perTree[|perTree| - 1][i] else 0.0)
  }

  /** importanceValues: per-feature totals over all trees. */
  function Totals(perTree: seq<seq<real>>, n: nat): (r: seq<real>)
    ensures |r| == n
  {
    seq(n, i requires 0 <= i < n => ColumnSum(perTree, i))
  }

  /**
   * calculateFeatureImportance of the random forest and of gradient
   * boosting: sum the trees' vectors feature by feature, total them, and
   * write each name's share into a map that starts with 0 for every name.
   */
  method CalculateFeatureImportance(names: seq<string>, perTree: seq<seq<real>>, n: nat)
    returns (scores: map<string, real>)
    requires forall t :: 0 <= t < |perTree| ==> |perTree[t]| == n
    ensures scores == ImportanceScores(names, Totals(perTree, n), n)
  {
    scores := map name | name in names :: 0.0;
    var values := seq(n, _ => 0.0);
    var t := 0;
    while t < |perTree|
      invariant 0 <= t <= |perTree| && |values| == n
      invariant forall i :: 0 <= i < n ==> values[i] == ColumnSum(perTree[..t], i)
    {
      assert perTree[..t + 1][..t] == perTree[..t];
      values := AddVector(values, perTree[t]);
      t := t + 1;
    }
    assert perTree[..t] == perTree;
    assert values == Totals(perTree, n);
    var shares := SharesOf(values, n);
    scores := AssignShares(scores, names, shares, Min(n, |names|));
  }

  /** values + tree, element by element (the inner loop over features). */
  method AddVector(values: seq<real>, tree: seq<real>) returns (r: seq<real>)
    requires |tree| == |values|
    ensures |r| == |values|
    ensures forall i :: 0 <= i < |r| ==> r[i] == values[i] + tree[i]
  {
    r := values;
    var i := 0;
    while i < |values|
      invariant 0 <= i <= |values| && |r| == |values|
      invariant forall j :: 0 <= j < i ==> r[j] == values[j] + tree[j]
      invariant forall j :: i <= j < |values| ==> r[j] == values[j]
    {
      r := r[i := r[i] + tree[i]];
      i := i + 1;
    }
  }

  /** The normalisation loops: the total, then value/total or 1/n. */
  method SharesOf(values: seq<real>, n: nat) returns (r: seq<real>)
    requires n <= |values|
    ensures r == Shares(values, n)
  {
    var total := 0.0;
    var i := 0;
    while i < n
      invariant 0 <= i <= n && total == SumTo(values, i)
    {
      total := total + values[i];
      i := i + 1;
    }
    if total > 0.0 {
      r := seq(n, j requires 0 <= j < n => values[j] / total);
    } else {
      r := seq(n, j requires 0 <= j < n => 1.0 / n as real);
    }
  }

  /** The loop writing name i's share for i = 0, 1, ..., k - 1. */
  method AssignShares(m: map<string, real>, names: seq<string>, shares: seq<real>, k: nat)
    returns (r: map<string, real>)
    requires k <= |names| && k <= |shares|
    ensures r == Assigned(m, names, shares, k)
  {
    r := m;
    var i := 0;
    while i < k
      invariant 0 <= i <= k && r == Assigned(m, names, shares, i)
    {
      r := r[names[i] := shares[i]];
      i := i + 1;
    }
  }

  /** The what() of the runtime_error the models throw before fit. */
  const NotFitted: string := "Model has not been fitted yet"

  /** The what() of predict's column-count check. */
  function FeatureMismatch(cols: nat, n: nat): string
  {
    "Number of features in X (" + NatToString(cols) + ") does not match the number of features the model was trained on ("
    + NatToString(n) + ")"
  }
}
