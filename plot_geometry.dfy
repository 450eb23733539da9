/**
 * What the two plot renderers compute from their stored data before
 * drawing: the extremes of a series, the y = x reference line of a
 * scatter plot, the y = 0 line of a residual plot, the 0..n-1 time axis
 * and the importance bars ordered by value. Values are reals standing for
 * doubles.
 */
module PlotGeometry {
  import opened Wrappers

  // ---------------------------------------------------------------------
  // Extremes and reference lines
  // ---------------------------------------------------------------------

  /** std::min_element over a non-empty series. */
  function MinOf(s: seq<real>): (m: real)
    requires |s| > 0
    ensures m in s
    ensures forall i :: 0 <= i < |s| ==> m <= s[i]
  {
    if |s| == 1 then s[0]
    else
      var rest := MinOf(s[1..]);
      if s[0] <= rest then s[0] else rest
  }

  /** std::max_element over a non-empty series. */
  function MaxOf(s: seq<real>): (m: real)
    requires |s| > 0
    ensures m in s
    ensures forall i :: 0 <= i < |s| ==> s[i] <= m
  {
    if |s| == 1 then s[0]
    else
      var rest := MaxOf(s[1..]);
      if s[0] >= rest then s[0] else rest
  }

  /** A line segment from (x0, y0) to (x1, y1). */
  datatype Segment = Segment(x0: real, y0: real, x1: real, y1: real)

  /**
   * The y = x line of a scatter plot: from (m, m) to (M, M), m the least
   * and M the greatest value of both series together; none unless both
   * series have values.
   */
  function IdentityLine(x: seq<real>, y: seq<real>): (line: Option<Segment>)
    ensures line.Some? <==> |x| > 0 && |y| > 0
    ensures line.Some? ==> line.value.x0 == line.value.y0 && line.value.x1 == line.value.y1
    ensures line.Some? ==> line.value.x0 in x + y && line.value.x1 in x + y
    ensures line.Some? ==> forall v :: v in x + y ==> line.value.x0 <= v <= line.value.x1
  {
    if |x| == 0 || |y| == 0 then None
    else
      var lo := if MinOf(x) <= MinOf(y) then MinOf(x) else MinOf(y);
      var hi := if MaxOf(x) >= MaxOf(y) then MaxOf(x) else MaxOf(y);
      Some(Segment(lo, lo, hi, hi))
  }

  /** The zero line of a residual plot: height 0 across the range of the
      predicted values; none when there are none. */
  function ZeroLine(x: seq<real>): (line: Option<Segment>)
    ensures line.Some? <==> |x| > 0
    ensures line.Some? ==> line.value.y0 == 0.0 && line.value.y1 == 0.0
    ensures line.Some? ==> line.value.x0 in x && line.value.x1 in x
    ensures line.Some? ==> forall i :: 0 <= i < |x| ==> line.value.x0 <= x[i] <= line.value.x1
  {
    if |x| == 0 then None else Some(Segment(MinOf(x), 0.0, MaxOf(x), 0.0))
  }

  /** The x values of a time series: the positions 0, 1, ..., n - 1. */
  function TimeAxis(n: nat): seq<real>
  {
    seq(n, i requires 0 <= i < n => i as real)
  }

  /** The index vector filled by a loop, position by position. */
  method TimeIndices(n: nat) returns (indices: seq<real>)
    ensures |indices| == n
    ensures forall i :: 0 <= i < n ==> indices[i] == i as real
    ensures indices == TimeAxis(n)
  {
    indices := [];
    var i := 0;
    while i < n
      invariant 0 <= i <= n && |indices| == i
      invariant forall k :: 0 <= k < i ==> indices[k] == k as real
    {
      indices := indices + [i as real];
      i := i + 1;
    }
  }

  // ---------------------------------------------------------------------
  // Importance bars
  // ---------------------------------------------------------------------

  /** One entry of an importance map: a feature name and its importance. */
  type Entry = (string, real)

  /** Values never increase along the sequence. */
  predicate NonIncreasing(s: seq<Entry>)
  {
    forall i, j :: 0 <= i < j < |s| ==> s[i].1 >= s[j].1
  }

  function Values(s: seq<Entry>): (v: seq<real>)
    ensures |v| == |s|
  {
    seq(|s|, i requires 0 <= i < |s| => s[i].1)
  }

  function Labels(s: seq<Entry>): (v: seq<string>)
    ensures |v| == |s|
  {
    seq(|s|, i requires 0 <= i < |s| => s[i].0)
  }

  /** Every value is at most v. */
  predicate AtMost(s: seq<Entry>, v: real)
  {
    forall i :: 0 <= i < |s| ==> s[i].1 <= v
  }

  /** e placed in front of the first entry whose value is not above it. */
  function Insert(s: seq<Entry>, e: Entry): (r: seq<Entry>)
    ensures multiset(r) == multiset(s) + multiset{e}
  {
    if s == [] || e.1 >= s[0].1 then [e] + s
    else
      assert s == [s[0]] + s[1..];
      [s[0]] + Insert(s[1..], e)
  }

  lemma {:induction false} InsertAtMost(s: seq<Entry>, e: Entry, v: real)
    requires AtMost(s, v) && e.1 <= v
    ensures AtMost(Insert(s, e), v)
  {
    if s != [] && e.1 < s[0].1 {
      InsertAtMost(s[1..], e, v);
    }
  }

  /** Inserting into a non-increasing sequence keeps it non-increasing. */
  lemma {:induction false} InsertSorted(s: seq<Entry>, e: Entry)
    requires NonIncreasing(s)
    ensures NonIncreasing(Insert(s, e))
  {
    if s != [] && e.1 < s[0].1 {
      var rest := Insert(s[1..], e);
      InsertSorted(s[1..], e);
      InsertAtMost(s[1..], e, s[0].1);
      var r := [s[0]] + rest;
      forall i, j | 0 <= i < j < |r| ensures r[i].1 >= r[j].1 {
        assert r[j] == rest[j - 1];
        if i > 0 {
          assert r[i] == rest[i - 1];
        }
      }
    }
  }

  /** A reference ordering: insertion sort by non-increasing value. Ties
      keep their input order here; std::sort may order them otherwise,
      which is why the bars are specified by SortedValuesUnique. */
  function SortByValue(s: seq<Entry>): (r: seq<Entry>)
    ensures multiset(r) == multiset(s)
    ensures NonIncreasing(r)
  {
    if s == [] then []
    else
      assert s == s[..|s| - 1] + [s[|s| - 1]];
      InsertSorted(SortByValue(s[..|s| - 1]), s[|s| - 1]);
      Insert(SortByValue(s[..|s| - 1]), s[|s| - 1])
  }

  /** Two orderings of the same entries by non-increasing value start with
      the same value, the greatest. */
  lemma HeadValuesAgree(a: seq<Entry>, b: seq<Entry>)
    requires multiset(a) == multiset(b) && |a| > 0
    requires NonIncreasing(a) && NonIncreasing(b)
    ensures |b| > 0 && a[0].1 == b[0].1
  {
    assert a[0] in multiset(b);
    assert b[0] in multiset(a);
    var k :| 0 <= k < |b| && b[k] == a[0];
    var j :| 0 <= j < |a| && a[j] == b[0];
  }

  /** Taking one entry out of a non-increasing sequence leaves one. */
  lemma RemoveSorted(b: seq<Entry>, k: nat)
    requires k < |b| && NonIncreasing(b)
    ensures NonIncreasing(b[..k] + b[k + 1..])
  {
    var rest := b[..k] + b[k + 1..];
    forall i, i' | 0 <= i < i' < |rest| ensures rest[i].1 >= rest[i'].1 {
      var p := if i < k then i else i + 1;
      var p' := if i' < k then i' else i' + 1;
      assert rest[i] == b[p] && rest[i'] == b[p'];
    }
  }

  /** When the entry taken out has the first entry's value, the values are
      that value followed by the values of what remains. */
  lemma RemoveTiedValues(b: seq<Entry>, k: nat)
    requires k < |b| && NonIncreasing(b) && b[k].1 == b[0].1
    ensures Values(b) == [b[k].1] + Values(b[..k] + b[k + 1..])
  {
    var rest := b[..k] + b[k + 1..];
    forall i | 0 < i < |b| ensures Values(b)[i] == Values(rest)[i - 1] {
      if i - 1 < k {
        assert rest[i - 1] == b[i - 1];
        assert b[0].1 >= b[i - 1].1 >= b[i].1 >= b[k].1;
      } else {
        assert rest[i - 1] == b[i];
      }
    }
  }

  /** The first entry of a sits somewhere in b; without it, both hold the
      same entries. */
  lemma TakeOut(a: seq<Entry>, b: seq<Entry>) returns (k: nat)
    requires multiset(a) == multiset(b) && |a| > 0
    ensures k < |b| && b[k] == a[0]
    ensures multiset(a[1..]) == multiset(b[..k] + b[k + 1..])
  {
    assert a[0] in multiset(b);
    k :| 0 <= k < |b| && b[k] == a[0];
    assert b == b[..k] + [b[k]] + b[k + 1..];
    assert multiset(b) == multiset(b[..k]) + multiset{b[k]} + multiset(b[k + 1..]);
    assert a == [a[0]] + a[1..];
    assert multiset(a) == multiset{a[0]} + multiset(a[1..]);
    var rest := b[..k] + b[k + 1..];
    assert multiset(rest) == multiset(b[..k]) + multiset(b[k + 1..]);
    assert multiset(b) == multiset(rest) + multiset{a[0]};
    assert multiset(a) == multiset(a[1..]) + multiset{a[0]};
    assert multiset(a[1..]) == multiset(a) - multiset{a[0]};
    assert multiset(rest) == multiset(b) - multiset{a[0]};
  }

  /**
   * Any two orderings of the same entries by non-increasing value give the
   * same bar lengths in the same order: only the labels of tied entries
   * may differ, so the bars do not depend on the map's iteration order or
   * on how std::sort breaks ties.
   */
  lemma {:induction false} SortedValuesUnique(a: seq<Entry>, b: seq<Entry>)
    requires multiset(a) == multiset(b)
    requires NonIncreasing(a) && NonIncreasing(b)
    ensures Values(a) == Values(b)
    decreases |a|
  {
    assert |a| == |multiset(a)| == |multiset(b)| == |b|;
    if |a| > 0 {
      HeadValuesAgree(a, b);
      var k := TakeOut(a, b);
      var rest := b[..k] + b[k + 1..];
      RemoveSorted(b, k);
      SortedValuesUnique(a[1..], rest);
      RemoveTiedValues(b, k);
      assert Values(a) == [a[0].1] + Values(a[1..]);
    }
  }

  /**
   * The importance bars: the map's entries (in its iteration order) copied
   * to a vector, sorted by non-increasing value, then split into the bar
   * values and their labels.
   */
  method ImportanceBars(entries: seq<Entry>) returns (values: seq<real>, labels: seq<string>)
    ensures |values| == |labels| == |entries|
    ensures exists order: seq<Entry> :: multiset(order) == multiset(entries) && NonIncreasing(order)
                                        && values == Values(order) && labels == Labels(order)
  {
    var sorted := [];
    var i := 0;
    while i < |entries|
      invariant 0 <= i <= |entries| && sorted == entries[..i]
    {
      sorted := sorted + [entries[i]];
      i := i + 1;
    }
    assert entries[..|entries|] == entries;
    sorted := SortByValue(sorted);
    values, labels := [], [];
    i := 0;
    while i < |sorted|
      invariant 0 <= i <= |sorted| && |values| == i && |labels| == i
      invariant forall k :: 0 <= k < i ==> values[k] == sorted[k].1 && labels[k] == sorted[k].0
    {
      values, labels := values + [sorted[i].1], labels + [sorted[i].0];
      i := i + 1;
    }
    assert |sorted| == |multiset(sorted)| == |multiset(entries)| == |entries|;
    assert values == Values(sorted) && labels == Labels(sorted);
  }
}
