/**
 * CSVReader: reads delimiter-separated text into a DataFrame. Every line is
 * split on each separator (no quoting), each field is trimmed of white
 * space, blank lines are skipped, and each column is kept as numbers, split
 * into year/month/day columns when it holds dates, or dropped.
 */
module CSV {
  import opened Wrappers
  import opened Strings
  import opened DataFrames

  // ---------------------------------------------------------------- trim

  /** std::isspace in the "C" locale. */
  predicate IsSpace(c: char) {
    c == ' ' || c == '\t' || c == '\n' || c == '\U{0B}' || c == '\U{0C}' || c == '\r'
  }

  function TrimLeft(s: string): string
  {
    if s != [] && IsSpace(s[0]) then TrimLeft(s[1..]) else s
  }

  function TrimRight(s: string): string
  {
    if s != [] && IsSpace(s[|s| - 1]) then TrimRight(s[..|s| - 1]) else s
  }

  /** r is s with some leading white space removed, and starts with a non-space. */
  predicate LeftTrimmed(s: string, r: string)
  {
    |r| <= |s| && r == s[|s| - |r|..] && (r == [] || !IsSpace(r[0]))
    && forall i :: 0 <= i < |s| - |r| ==> IsSpace(s[i])
  }

  /** r is s with some trailing white space removed, and ends with a non-space. */
  predicate RightTrimmed(s: string, r: string)
  {
    |r| <= |s| && r == s[..|r|] && (r == [] || !IsSpace(r[|r| - 1]))
    && forall i :: |r| <= i < |s| ==> IsSpace(s[i])
  }

  lemma {:induction false} TrimLeftFacts(s: string)
    ensures LeftTrimmed(s, TrimLeft(s))
  {
    if s != [] && IsSpace(s[0]) {
      TrimLeftFacts(s[1..]);
      LeftTrimmedStep(s, TrimLeft(s[1..]));
    }
  }

  lemma LeftTrimmedStep(s: string, r: string)
    requires s != [] && IsSpace(s[0]) && LeftTrimmed(s[1..], r)
    ensures LeftTrimmed(s, r)
  {
    assert s[1..][|s| - 1 - |r|..] == s[|s| - |r|..];
    forall i | 0 <= i < |s| - |r| ensures IsSpace(s[i]) {
      if i > 0 { assert s[i] == s[1..][i - 1]; }
    }
  }

  lemma {:induction false} TrimRightFacts(s: string)
    ensures RightTrimmed(s, TrimRight(s))
  {
    if s != [] && IsSpace(s[|s| - 1]) {
      TrimRightFacts(s[..|s| - 1]);
      RightTrimmedStep(s, TrimRight(s[..|s| - 1]));
    }
  }

  lemma RightTrimmedStep(s: string, r: string)
    requires s != [] && IsSpace(s[|s| - 1]) && RightTrimmed(s[..|s| - 1], r)
    ensures RightTrimmed(s, r)
  {
    assert s[..|s| - 1][..|r|] == s[..|r|];
    forall i | |r| <= i < |s| ensures IsSpace(s[i]) {
      if i < |s| - 1 { assert s[i] == s[..|s| - 1][i]; }
    }
  }

  /** trim: the text between the first and the last non-space character. */
  function Trim(s: string): (r: string)
  {
    TrimRight(TrimLeft(s))
  }

  /**
   * Trim removes exactly the leading and trailing white space: the result is
   * a slice s[a..b] with only spaces outside it, and it is empty or starts
   * and ends with a non-space.
   */
  lemma TrimIsSlice(s: string)
    ensures exists a, b :: 0 <= a <= b <= |s| && Trim(s) == s[a..b]
              && (forall i :: 0 <= i < a ==> IsSpace(s[i]))
              && (forall i :: b <= i < |s| ==> IsSpace(s[i]))
    ensures Trim(s) == [] || (!IsSpace(Trim(s)[0]) && !IsSpace(Trim(s)[|Trim(s)| - 1]))
  {
    var l := TrimLeft(s);
    var a := |s| - |l|;
    var r := TrimRight(l);
    TrimLeftFacts(s);
    TrimRightFacts(l);
    assert Trim(s) == s[a..a + |r|];
    if r != [] {
      assert r[0] == l[0];
    }
  }

  /** Trimming twice is trimming once. */
  lemma TrimIdempotent(s: string)
    ensures Trim(Trim(s)) == Trim(s)
  {
    var t := Trim(s);
    TrimIsSlice(s);
    TrimLeftFacts(t);
    TrimRightFacts(t);
    if t != [] {
      assert TrimLeft(t) == t;
      assert TrimRight(t) == t;
    }
  }

  // ---------------------------------------------------------------- split

  /** The position of the first `d` at or after `i`, or |s| when there is none. */
  function IndexFrom(s: string, d: char, i: nat): (k: nat)
    requires i <= |s|
    ensures i <= k <= |s| && (k < |s| ==> s[k] == d)
    ensures forall j :: i <= j < k ==> s[j] != d
    decreases |s| - i
  {
    if i == |s| || s[i] == d then i else IndexFrom(s, d, i + 1)
  }

  lemma {:induction false} IndexFromIs(s: string, d: char, i: nat, k: nat)
    requires i <= k <= |s| && (k < |s| ==> s[k] == d)
    requires forall j :: i <= j < k ==> s[j] != d
    ensures IndexFrom(s, d, i) == k
    decreases k - i
  {
    if i < k {
      IndexFromIs(s, d, i + 1, k);
    }
  }

  /**
   * The tokens std::getline(stream, token, d) yields from position `start`
   * on: a field per separator, then the text after the last separator only
   * when it is not empty.
   */
  function TokensFrom(s: string, d: char, start: nat): seq<string>
    requires start <= |s|
    decreases |s| - start
  {
    if start == |s| then []
    else
      var k := IndexFrom(s, d, start);
      if k == |s| then [s[start..]] else [s[start..k]] + TokensFrom(s, d, k + 1)
  }

  /** split: the tokens of the whole line; "" has none. */
  function Tokens(s: string, d: char): seq<string>
  {
    TokensFrom(s, d, 0)
  }

  predicate Free(t: string, d: char) { forall j :: 0 <= j < |t| ==> t[j] != d }

  /** The inverse direction: fields glued back with the delimiter between them. */
  function Join(ts: seq<string>, d: char): string
  {
    if ts == [] then [] else if |ts| == 1 then ts[0] else ts[0] + [d] + Join(ts[1..], d)
  }

  /** No token holds the separator. */
  lemma {:induction false} TokensAreFree(s: string, d: char, start: nat)
    requires start <= |s|
    ensures forall i :: 0 <= i < |TokensFrom(s, d, start)| ==> Free(TokensFrom(s, d, start)[i], d)
    decreases |s| - start
  {
    if start < |s| {
      var k := IndexFrom(s, d, start);
      if k < |s| {
        TokensAreFree(s, d, k + 1);
      }
    }
  }

  /**
   * split loses only one trailing separator: joining the tokens gives back
   * the text, or the text without its last character when that is the
   * separator.
   */
  lemma {:induction false} JoinTokensFrom(s: string, d: char, start: nat)
    requires start <= |s|
    ensures start < |s| && s[|s| - 1] == d ==> Join(TokensFrom(s, d, start), d) + [d] == s[start..]
    ensures !(start < |s| && s[|s| - 1] == d) ==> Join(TokensFrom(s, d, start), d) == s[start..]
  {
    if start < |s| && s[|s| - 1] == d {
      JoinTokensTrailing(s, d, start);
    } else {
      JoinTokensPlain(s, d, start);
    }
  }

  lemma {:induction false} JoinTokensTrailing(s: string, d: char, start: nat)
    requires start < |s| && s[|s| - 1] == d
    ensures Join(TokensFrom(s, d, start), d) + [d] == s[start..]
    decreases |s| - start
  {
    var k := IndexFrom(s, d, start);
    var first, rest, after := s[start..k], TokensFrom(s, d, k + 1), s[k + 1..];
    assert TokensFrom(s, d, start) == [first] + rest by { TokensFromStep(s, d, start); }
    assert s[start..] == first + [d] + after by { CutAround(s, start, k); }
    if k + 1 < |s| {
      assert rest != [] by { TokensFromNonEmpty(s, d, k + 1); }
      assert Join(rest, d) + [d] == after by { JoinTokensTrailing(s, d, k + 1); }
      JoinStep(first, rest, d, after);
    } else {
      assert rest == [] && after == [];
      assert [first] + rest == [first];
    }
  }

  /** Joining one more token in front of a trailing separator. */
  lemma JoinStep(first: string, rest: seq<string>, d: char, after: string)
    requires rest != [] && Join(rest, d) + [d] == after
    ensures Join([first] + rest, d) + [d] == first + [d] + after
  {
    JoinCons(first, rest, d);
  }

  lemma {:induction false} JoinTokensPlain(s: string, d: char, start: nat)
    requires start <= |s| && !(start < |s| && s[|s| - 1] == d)
    ensures Join(TokensFrom(s, d, start), d) == s[start..]
    decreases |s| - start
  {
    if start < |s| {
      var k := IndexFrom(s, d, start);
      if k < |s| {
        JoinTokensPlain(s, d, k + 1);
        JoinTokensPlainStep(s, d, start);
      } else {
        assert TokensFrom(s, d, start) == [s[start..]];
      }
    }
  }

  /** The step of JoinTokensPlain: a separator at k, and the tokens after it join back. */
  lemma JoinTokensPlainStep(s: string, d: char, start: nat)
    requires start < |s| && s[|s| - 1] != d
    requires IndexFrom(s, d, start) < |s|
    requires Join(TokensFrom(s, d, IndexFrom(s, d, start) + 1), d) == s[IndexFrom(s, d, start) + 1..]
    ensures Join(TokensFrom(s, d, start), d) == s[start..]
  {
    var k := IndexFrom(s, d, start);
    var first, rest, after := s[start..k], TokensFrom(s, d, k + 1), s[k + 1..];
    assert TokensFrom(s, d, start) == [first] + rest by { TokensFromStep(s, d, start); }
    assert s[start..] == first + [d] + after by { CutAround(s, start, k); }
    assert rest != [] by { TokensFromNonEmpty(s, d, k + 1); }
    JoinInFront(first, rest, d, after, TokensFrom(s, d, start), s[start..]);
  }

  /** Joining one more token in front of tokens that join to `after`. */
  lemma JoinInFront(first: string, rest: seq<string>, d: char, after: string, tokens: seq<string>, text: string)
    requires tokens == [first] + rest && text == first + [d] + after
    requires rest != [] && Join(rest, d) == after
    ensures Join(tokens, d) == text
  {
    JoinCons(first, rest, d);
  }

  /** When a separator follows `start`, the first token runs up to it. */
  lemma TokensFromStep(s: string, d: char, start: nat)
    requires start < |s| && IndexFrom(s, d, start) < |s|
    ensures TokensFrom(s, d, start) == [s[start..IndexFrom(s, d, start)]] + TokensFrom(s, d, IndexFrom(s, d, start) + 1)
  {
  }

  lemma CutAround(s: string, start: nat, k: nat)
    requires start <= k < |s|
    ensures s[start..] == s[start..k] + [s[k]] + s[k + 1..]
  {
  }

  lemma AppendAssoc(a: string, b: string, c: string)
    ensures a + b + c == a + (b + c)
  {
  }

  lemma JoinCons(t: string, ts: seq<string>, d: char)
    requires ts != []
    ensures Join([t] + ts, d) == t + [d] + Join(ts, d)
  {
    assert ([t] + ts)[1..] == ts;
  }

  lemma TokensFromNonEmpty(s: string, d: char, start: nat)
    requires start <= |s|
    ensures TokensFrom(s, d, start) == [] <==> start == |s|
  {
  }

  lemma JoinTokens(s: string, d: char)
    ensures s != [] && s[|s| - 1] == d ==> Join(Tokens(s, d), d) + [d] == s
    ensures !(s != [] && s[|s| - 1] == d) ==> Join(Tokens(s, d), d) == s
  {
    JoinTokensFrom(s, d, 0);
  }

  /** And the other way round: separator-free tokens, the last one non-empty, split back into themselves. */
  lemma {:induction false} TokensFromJoin(s: string, start: nat, ts: seq<string>, d: char)
    requires start <= |s| && s[start..] == Join(ts, d)
    requires forall i :: 0 <= i < |ts| ==> Free(ts[i], d)
    requires ts != [] ==> ts[|ts| - 1] != []
    ensures TokensFrom(s, d, start) == ts
    decreases |ts|
  {
    if |ts| == 1 {
      IndexFromIs(s, d, start, |s|);
    } else if |ts| > 1 {
      var k := start + |ts[0]|;
      assert s[start..] == ts[0] + [d] + Join(ts[1..], d);
      assert s[start..k] == ts[0];
      IndexFromIs(s, d, start, k);
      assert s[k + 1..] == Join(ts[1..], d);
      TokensFromJoin(s, k + 1, ts[1..], d);
    }
  }

  lemma TokensOfJoin(ts: seq<string>, d: char)
    requires forall i :: 0 <= i < |ts| ==> Free(ts[i], d)
    requires ts != [] ==> ts[|ts| - 1] != []
    ensures Tokens(Join(ts, d), d) == ts
  {
    TokensFromJoin(Join(ts, d), 0, ts, d);
  }

  /** split: reads the line character by character, as getline does. */
  method Split(s: string, d: char) returns (tokens: seq<string>)
    ensures tokens == Tokens(s, d)
  {
    tokens := [];
    var start, i := 0, 0;
    while i < |s|
      invariant 0 <= start <= i <= |s|
      invariant forall j :: start <= j < i ==> s[j] != d
      invariant Tokens(s, d) == tokens + TokensFrom(s, d, start)
    {
      if s[i] == d {
        IndexFromIs(s, d, start, i);
        tokens := tokens + [s[start..i]];
        start := i + 1;
      }
      i := i + 1;
    }
    IndexFromIs(s, d, start, |s|);
    if start < |s| {
      tokens := tokens + [s[start..]];
    }
  }

  /** A line's fields: split on the separator, each trimmed. */
  function Fields(line: string, d: char): (r: seq<string>)
    ensures |r| == |Tokens(line, d)|
  {
    var t := Tokens(line, d);
    seq(|t|, i requires 0 <= i < |t| => Trim(t[i]))
  }

  method SplitFields(line: string, d: char) returns (values: seq<string>)
    ensures values == Fields(line, d)
  {
    var tokens := Split(line, d);
    values := [];
    var i := 0;
    while i < |tokens|
      invariant 0 <= i <= |tokens|
      invariant |values| == i && forall j :: 0 <= j < i ==> values[j] == Trim(tokens[j])
    {
      values := values + [Trim(tokens[i])];
      i := i + 1;
    }
  }

  // ---------------------------------------------------------------- isNumeric

  predicate IsNumberChar(c: char) { IsDigit(c) || c == '.' }

  /** The length of an optional leading '+' or '-'. */
  function SignLength(s: string): (n: nat)
    ensures n <= 1 && n <= |s|
  {
    if s != [] && (s[0] == '+' || s[0] == '-') then 1 else 0
  }

  /**
   * The strings isNumeric accepts: non-empty, an optional sign, then only
   * digits and '.', no '.' twice, and at least one digit.
   */
  predicate NumericShape(s: string) {
    s != []
    && (forall i :: SignLength(s) <= i < |s| ==> IsNumberChar(s[i]))
    && (forall i, j :: SignLength(s) <= i < j < |s| && s[i] == '.' ==> s[j] != '.')
    && (exists i :: SignLength(s) <= i < |s| && IsDigit(s[i]))
  }

  /** isNumeric: one pass with the hasDecimal and hasDigit flags. */
  method IsNumeric(s: string) returns (b: bool)
    ensures b <==> NumericShape(s)
  {
    if s == [] {
      return false;
    }
    var hasDecimal, hasDigit := false, false;
    var i := 0;
    if s[0] == '+' || s[0] == '-' {
      i := 1;
    }
    while i < |s|
      invariant SignLength(s) <= i <= |s|
      invariant forall j :: SignLength(s) <= j < i ==> IsNumberChar(s[j])
      invariant forall j, k :: SignLength(s) <= j < k < i && s[j] == '.' ==> s[k] != '.'
      invariant hasDecimal <==> exists j :: SignLength(s) <= j < i && s[j] == '.'
      invariant hasDigit <==> exists j :: SignLength(s) <= j < i && IsDigit(s[j])
    {
      if IsDigit(s[i]) {
        hasDigit := true;
      } else if s[i] == '.' && !hasDecimal {
        hasDecimal := true;
      } else {
        return false;
      }
      i := i + 1;
    }
    return hasDigit;
  }

  lemma IsNumericExamples()
    ensures !NumericShape("") && !NumericShape("+") && !NumericShape(".")
    ensures !NumericShape("1e5") && !NumericShape("1.2.3")
    ensures NumericShape("-1.5") && NumericShape("+.5") && NumericShape("7.")
  {
    assert "1e5"[1] == 'e';
    assert "1.2.3"[1] == '.' && "1.2.3"[3] == '.';
    assert "-1.5"[1] == '1';
    assert "+.5"[2] == '5';
    assert "7."[0] == '7';
  }

  function Pow10(k: nat): (p: nat)
    ensures p >= 1
  {
    if k == 0 then 1 else 10 * Pow10(k - 1)
  }

  /** std::stod of a string isNumeric accepts: sign, integer digits, fraction digits. */
  function NumericValue(s: string): real
    requires NumericShape(s)
  {
    var b := s[SignLength(s)..];
    assert forall i :: 0 <= i < |b| ==> b[i] == s[SignLength(s) + i];
    var k := IndexFrom(b, '.', 0);
    var whole := b[..k];
    var frac := if k < |b| then b[k + 1..] else [];
    assert AllDigits(whole) && AllDigits(frac) by {
      assert forall i :: 0 <= i < |whole| ==> whole[i] == b[i];
      if k < |b| {
        assert forall i :: 0 <= i < |frac| ==> frac[i] == b[k + 1 + i];
      }
    }
    var magnitude := DigitsValue(whole) as real + DigitsValue(frac) as real / Pow10(|frac|) as real;
    if s[0] == '-' then -magnitude else magnitude
  }

  /** A plain run of digits is numeric and reads as its decimal value. */
  lemma NumericValueOfDigits(s: string)
    requires s != [] && AllDigits(s)
    ensures NumericShape(s) && NumericValue(s) == DigitsValue(s) as real
  {
    DigitsAreNumeric(s);
    IndexFromIs(s, '.', 0, |s|);
    assert s[..|s|] == s;
    assert DigitsValue([]) == 0;
  }

  lemma DigitsAreNumeric(s: string)
    requires s != [] && AllDigits(s)
    ensures NumericShape(s) && SignLength(s) == 0
    ensures forall i :: 0 <= i < |s| ==> s[i] != '.'
  {
    assert SignLength(s) == 0 && IsDigit(s[0]);
    forall i | 0 <= i < |s| ensures s[i] != '.' { assert IsDigit(s[i]); }
  }

  /** A minus sign before a run of digits negates its value. */
  lemma NumericValueOfNegatedDigits(s: string)
    requires s != [] && AllDigits(s)
    ensures NumericShape("-" + s) && NumericValue("-" + s) == -(DigitsValue(s) as real)
  {
    NumericValueOfDigits(s);
    var t := "-" + s;
    assert SignLength(t) == 1 && t[1..] == s;
    assert forall i :: 1 <= i < |t| ==> t[i] == s[i - 1];
  }

  /** The decimal text std::to_string writes for a count reads back as that count, with either sign. */
  lemma NumericValueOfNatToString(n: nat)
    ensures NumericShape(NatToString(n)) && NumericValue(NatToString(n)) == n as real
    ensures NumericShape("-" + NatToString(n)) && NumericValue("-" + NatToString(n)) == -(n as real)
  {
    DigitsValueOfNatToString(n);
    NumericValueOfDigits(NatToString(n));
    NumericValueOfNegatedDigits(NatToString(n));
  }

  // ---------------------------------------------------------------- dates

  /** The three groups of a string cut at its first two separators. */
  function Groups(s: string, sep: char): Option<(string, string, string)>
  {
    var i := IndexFrom(s, sep, 0);
    if i == |s| then None
    else
      var j := IndexFrom(s, sep, i + 1);
      if j == |s| then None
      else Some((s[..i], s[i + 1..j], s[j + 1..]))
  }

  predicate DigitRun(s: string, lo: nat, hi: nat) { lo <= |s| <= hi && AllDigits(s) }

  /**
   * A full match of \d{w1}-\d{w2}-\d{w3} with the given width bounds: since a
   * digit group never holds the separator, the groups are the text around
   * the first two separators.
   */
  predicate MatchDate(s: string, sep: char, lo1: nat, hi1: nat, lo2: nat, hi2: nat, lo3: nat, hi3: nat)
  {
    match Groups(s, sep)
    case None => false
    case Some(g) => DigitRun(g.0, lo1, hi1) && DigitRun(g.1, lo2, hi2) && DigitRun(g.2, lo3, hi3)
  }

  predicate IsIsoDate(s: string) { MatchDate(s, '-', 4, 4, 1, 2, 1, 2) }
  predicate IsSlashDate(s: string) { MatchDate(s, '/', 1, 2, 1, 2, 4, 4) }
  predicate IsDashDate(s: string) { MatchDate(s, '-', 1, 2, 1, 2, 4, 4) }

  /** isDateFormat */
  predicate IsDateFormat(s: string) { IsIsoDate(s) || IsSlashDate(s) || IsDashDate(s) }

  /**
   * extractDateComponents: (year, month, day); month first for the slash and
   * dash forms; (0, 0, 0) when no form matches.
   */
  function ExtractDateComponents(s: string): (r: (int, int, int))
    ensures !IsDateFormat(s) ==> r == (0, 0, 0)
    ensures IsDateFormat(s) ==> r.0 >= 0 && r.1 >= 0 && r.2 >= 0
  {
    if IsIsoDate(s) then
      var g := Groups(s, '-').value;
      (DigitsValue(g.0), DigitsValue(g.1), DigitsValue(g.2))
    else if IsSlashDate(s) then
      var g := Groups(s, '/').value;
      (DigitsValue(g.2), DigitsValue(g.0), DigitsValue(g.1))
    else if IsDashDate(s) then
      var g := Groups(s, '-').value;
      (DigitsValue(g.2), DigitsValue(g.0), DigitsValue(g.1))
    else (0, 0, 0)
  }

  /** Digit groups glued with a non-digit separator are cut back into the same groups. */
  lemma GroupsOfJoined(a: string, b: string, c: string, sep: char)
    requires AllDigits(a) && AllDigits(b) && AllDigits(c) && !IsDigit(sep)
    ensures Groups(a + [sep] + b + [sep] + c, sep) == Some((a, b, c))
  {
    var s := a + [sep] + b + [sep] + c;
    var i := |a|;
    var j := |a| + 1 + |b|;
    assert s[..i] == a && s[i + 1..j] == b && s[j + 1..] == c;
    assert forall k :: 0 <= k < i ==> s[k] == a[k];
    IndexFromIs(s, sep, 0, i);
    assert forall k :: i + 1 <= k < j ==> s[k] == b[k - i - 1];
    IndexFromIs(s, sep, i + 1, j);
  }

  /** The groups, glued back around the two separators, give the string: a match is exactly such a string. */
  lemma GroupsJoin(s: string, sep: char)
    requires Groups(s, sep).Some?
    ensures var g := Groups(s, sep).value; s == g.0 + [sep] + g.1 + [sep] + g.2
  {
    var i := IndexFrom(s, sep, 0);
    var j := IndexFrom(s, sep, i + 1);
    assert s == s[..i] + [s[i]] + s[i + 1..j] + [s[j]] + s[j + 1..];
  }

  /** "YYYY-M-D" as std::to_string prints it reads back as (Y, M, D). */
  lemma IsoDateRoundTrip(y: nat, m: nat, d: nat)
    requires 1000 <= y < 10000 && m < 100 && d < 100
    ensures var s := NatToString(y) + "-" + NatToString(m) + "-" + NatToString(d);
            IsDateFormat(s) && ExtractDateComponents(s) == (y, m, d)
  {
    NatToStringLength(y); NatToStringLength(m); NatToStringLength(d);
    DigitsValueOfNatToString(y); DigitsValueOfNatToString(m); DigitsValueOfNatToString(d);
    var s := NatToString(y) + "-" + NatToString(m) + "-" + NatToString(d);
    assert s == NatToString(y) + ['-'] + NatToString(m) + ['-'] + NatToString(d);
    GroupsOfJoined(NatToString(y), NatToString(m), NatToString(d), '-');
  }

  /** "M/D/YYYY" and "M-D-YYYY" are read month first: both give (Y, M, D). */
  lemma MonthFirstRoundTrip(y: nat, m: nat, d: nat)
    requires 1000 <= y < 10000 && m < 100 && d < 100
    ensures var s := NatToString(m) + "/" + NatToString(d) + "/" + NatToString(y);
            IsDateFormat(s) && ExtractDateComponents(s) == (y, m, d)
    ensures var s := NatToString(m) + "-" + NatToString(d) + "-" + NatToString(y);
            IsDateFormat(s) && ExtractDateComponents(s) == (y, m, d)
  {
    NatToStringLength(y); NatToStringLength(m); NatToStringLength(d);
    DigitsValueOfNatToString(y); DigitsValueOfNatToString(m); DigitsValueOfNatToString(d);
    var s1 := NatToString(m) + "/" + NatToString(d) + "/" + NatToString(y);
    assert s1 == NatToString(m) + ['/'] + NatToString(d) + ['/'] + NatToString(y);
    GroupsOfJoined(NatToString(m), NatToString(d), NatToString(y), '/');
    NotInJoined(NatToString(m), NatToString(d), NatToString(y), '/', '-');
    IndexFromIs(s1, '-', 0, |s1|);
    assert !IsIsoDate(s1);
    var s2 := NatToString(m) + "-" + NatToString(d) + "-" + NatToString(y);
    assert s2 == NatToString(m) + ['-'] + NatToString(d) + ['-'] + NatToString(y);
    GroupsOfJoined(NatToString(m), NatToString(d), NatToString(y), '-');
    assert !IsIsoDate(s2);
  }

  lemma NotInJoined(a: string, b: string, c: string, sep: char, x: char)
    requires AllDigits(a) && AllDigits(b) && AllDigits(c) && !IsDigit(x) && x != sep
    ensures Free(a + [sep] + b + [sep] + c, x)
  {
    var s := a + [sep] + b + [sep] + c;
    forall i | 0 <= i < |s| ensures s[i] != x {
      if i < |a| { assert s[i] == a[i]; }
      else if i == |a| { }
      else if i < |a| + 1 + |b| { assert s[i] == b[i - |a| - 1]; }
      else if i == |a| + 1 + |b| { }
      else { assert s[i] == c[i - |a| - 2 - |b|]; }
    }
  }

  // ---------------------------------------------------------------- readCSV

  /** A line that yields no value, or only one empty value, is skipped. */
  predicate IsBlank(values: seq<string>) { values == [] || (|values| == 1 && values[0] == []) }

  /** The data rows readCSV keeps from the given lines, in order. */
  function DataRows(lines: seq<string>, d: char): (rows: seq<seq<string>>)
    ensures forall i :: 0 <= i < |rows| ==> !IsBlank(rows[i])
    ensures |rows| <= |lines|
  {
    if lines == [] then []
    else
      var v := Fields(lines[|lines| - 1], d);
      DataRows(lines[..|lines| - 1], d) + (if IsBlank(v) then [] else [v])
  }

  predicate Rectangular(rows: seq<seq<string>>, width: nat)
  {
    forall i :: 0 <= i < |rows| ==> |rows[i]| == width
  }

  /** A column is read as a date when one of its first five values has a date form. */
  predicate IsDateColumn(rows: seq<seq<string>>, col: nat)
    requires forall i :: 0 <= i < |rows| ==> col < |rows[i]|
  {
    exists i :: 0 <= i < |rows| && i < 5 && IsDateFormat(rows[i][col])
  }

  predicate IsNumericColumn(rows: seq<seq<string>>, col: nat)
    requires forall i :: 0 <= i < |rows| ==> col < |rows[i]|
  {
    forall i :: 0 <= i < |rows| ==> NumericShape(rows[i][col])
  }

  /** The columns processDateColumn derives: year, month and day, in that order. */
  function DateEntries(rows: seq<seq<string>>, col: nat, name: string): (e: seq<(string, seq<real>)>)
    requires forall i :: 0 <= i < |rows| ==> col < |rows[i]|
    ensures |e| == 3 && forall k :: 0 <= k < 3 ==> |e[k].1| == |rows|
  {
    [(name + "_year", seq(|rows|, i requires 0 <= i < |rows| => ExtractDateComponents(rows[i][col]).0 as real)),
     (name + "_month", seq(|rows|, i requires 0 <= i < |rows| => ExtractDateComponents(rows[i][col]).1 as real)),
     (name + "_day", seq(|rows|, i requires 0 <= i < |rows| => ExtractDateComponents(rows[i][col]).2 as real))]
  }

  /** What one input column contributes to the frame. */
  function ColumnEntries(rows: seq<seq<string>>, col: nat, name: string): (e: seq<(string, seq<real>)>)
    requires forall i :: 0 <= i < |rows| ==> col < |rows[i]|
    ensures forall k :: 0 <= k < |e| ==> |e[k].1| == |rows|
  {
    if IsDateColumn(rows, col) then DateEntries(rows, col, name)
    else if IsNumericColumn(rows, col) then
      [(name, seq(|rows|, i requires 0 <= i < |rows| => NumericValue(rows[i][col])))]
    else []
  }

  /** The contributions of columns 0..k-1, in column order. */
  function Entries(rows: seq<seq<string>>, names: seq<string>, k: nat): (e: seq<(string, seq<real>)>)
    requires k <= |names| && Rectangular(rows, |names|)
    ensures forall j :: 0 <= j < |e| ==> |e[j].1| == |rows|
  {
    if k == 0 then [] else Entries(rows, names, k - 1) + ColumnEntries(rows, k - 1, names[k - 1])
  }

  /** Column names in force once the data rows are known: generated when there are none. */
  function FinalNames(names: seq<string>, rows: seq<seq<string>>): seq<string>
  {
    if names == [] && rows != [] then NumberedNames("Column", 1, |rows[0]|) else names
  }

  /**
   * What readCSV produces from the column names in force and the remaining
   * lines: the table of columns, or the exception it throws.
   */
  function ReadTable(names: seq<string>, lines: seq<string>, d: char): Result<seq<(string, seq<real>)>>
  {
    var rows := DataRows(lines, d);
    var all := FinalNames(names, rows);
    if rows == [] then Err(RuntimeError("No data found in the file"))
    else if !Rectangular(rows, |all|) then Err(RuntimeError("Inconsistent number of columns in the CSV file"))
    else
      var e := Entries(rows, all, |all|);
      if Distinct(NamesOf(e)) then Ok(e) else Err(InvalidArgument("duplicate column name"))
  }

  /** Header handling: the header line's fields replace the names; otherwise the names stay. */
  function HeaderNames(oldNames: seq<string>, lines: seq<string>, d: char, hasHeader: bool): seq<string>
  {
    if hasHeader && lines != [] then Fields(lines[0], d) else oldNames
  }

  function BodyLines(lines: seq<string>, hasHeader: bool): seq<string>
  {
    if hasHeader && lines != [] then lines[1..] else lines
  }

  /** Without a header every row must be as wide as the first one. */
  lemma GeneratedNamesFollowFirstRow(lines: seq<string>, d: char)
    requires DataRows(lines, d) != []
    ensures var rows := DataRows(lines, d);
            var names := FinalNames([], rows);
            |names| == |rows[0]| && Distinct(names)
            && (ReadTable([], lines, d).Err? <== !Rectangular(rows, |rows[0]|))
  {
    NumberedNamesDistinct("Column", 1, |DataRows(lines, d)[0]|);
  }

  /** A table that is read always has the row count of the kept lines in every column. */
  lemma ReadTableShape(names: seq<string>, lines: seq<string>, d: char)
    requires ReadTable(names, lines, d).Ok?
    ensures var t := ReadTable(names, lines, d).value;
            Distinct(NamesOf(t))
            && forall j :: 0 <= j < |t| ==> |t[j].1| == |DataRows(lines, d)| > 0
  {
  }

  /** A name repeated among the first k columns' entries stays repeated in the first m. */
  lemma {:induction false} LaterColumnsKeepDuplicate(rows: seq<seq<string>>, names: seq<string>, k: nat, m: nat)
    requires k <= m <= |names| && Rectangular(rows, |names|)
    requires !Distinct(NamesOf(Entries(rows, names, k)))
    ensures !Distinct(NamesOf(Entries(rows, names, m)))
    decreases m - k
  {
    if k < m {
      LaterColumnsKeepDuplicate(rows, names, k, m - 1);
      DuplicateNamePersists(Entries(rows, names, m - 1), Entries(rows, names, m));
    }
  }

  lemma NotDistinctExtends(a: seq<string>, b: seq<string>)
    requires !Distinct(a) && a <= b
    ensures !Distinct(b)
  {
    var i, j :| 0 <= i < j < |a| && a[i] == a[j];
    assert b[i] == b[j];
  }

  class CSVReader {
    /** Names from the last header read; kept between calls. */
    var columnNames: seq<string>

    constructor ()
      ensures columnNames == []
    {
      columnNames := [];
    }

    /**
     * readCSV. `file` is the file's lines, or None when it cannot be opened.
     * The result is the frame of kept columns or the exception thrown; the
     * column names of the header (or the generated ones) stay in the reader.
     */
    method ReadCSV(filePath: string, file: Option<seq<string>>, separator: char, hasHeader: bool)
      returns (r: Result<DataFrame>)
      modifies this
      ensures file.None? ==> r == Err(RuntimeError("Could not open file: " + filePath)) && columnNames == old(columnNames)
      ensures file.Some? ==>
                var names := HeaderNames(old(columnNames), file.value, separator, hasHeader);
                var body := BodyLines(file.value, hasHeader);
                var spec := ReadTable(names, body, separator);
                columnNames == FinalNames(names, DataRows(body, separator))
                && (spec.Ok? <==> r.Ok?)
                && (r.Ok? ==> fresh(r.value) && r.value.Valid() && r.value.Table() == spec.value)
                && (spec.Err? && spec.error.RuntimeError? ==> r == Err(spec.error))
                && (spec.Err? && spec.error.InvalidArgument? ==> r.Err? && r.error.InvalidArgument?)
    {
      if file.None? {
        return Err(RuntimeError("Could not open file: " + filePath));
      }
      var lines := file.value;
      var df := new DataFrame();
      var body := lines;
      if hasHeader && lines != [] {
        columnNames := SplitFields(lines[0], separator);
        body := lines[1..];
      }
      var rawData := ReadRows(body, separator);
      if rawData == [] {
        return Err(RuntimeError("No data found in the file"));
      }
      if columnNames == [] {
        columnNames := GenerateNames(|rawData[0]|);
      }
      var consistent := AllRowsHaveWidth(rawData, |columnNames|);
      if !consistent {
        return Err(RuntimeError("Inconsistent number of columns in the CSV file"));
      }
      var o := ProcessColumns(df, rawData, columnNames);
      if o.Fail? {
        return Err(o.error);
      }
      return Ok(df);
    }
  }

  /** The names Column1..ColumnN given to a file without a header. */
  method GenerateNames(width: nat) returns (names: seq<string>)
    ensures names == NumberedNames("Column", 1, width)
  {
    names := [];
    var i := 0;
    while i < width
      invariant 0 <= i <= width
      invariant |names| == i && forall j :: 0 <= j < i ==> names[j] == "Column" + NatToString(1 + j)
    {
      names := names + ["Column" + NatToString(i + 1)];
      i := i + 1;
    }
    NumberedNamesAt("Column", 1, width);
  }

  /** The check that every row has as many fields as there are names. */
  method AllRowsHaveWidth(rawData: seq<seq<string>>, numColumns: nat) returns (ok: bool)
    ensures ok <==> Rectangular(rawData, numColumns)
  {
    var k := 0;
    while k < |rawData|
      invariant 0 <= k <= |rawData|
      invariant forall j :: 0 <= j < k ==> |rawData[j]| == numColumns
    {
      if |rawData[k]| != numColumns {
        return false;
      }
      k := k + 1;
    }
    return true;
  }

  /** The loop of readCSV that splits, trims and filters the data lines. */
  method ReadRows(lines: seq<string>, d: char) returns (rawData: seq<seq<string>>)
    ensures rawData == DataRows(lines, d)
  {
    rawData := [];
    var k := 0;
    while k < |lines|
      invariant 0 <= k <= |lines|
      invariant rawData == DataRows(lines[..k], d)
    {
      var values := SplitFields(lines[k], d);
      assert lines[..k + 1][..k] == lines[..k];
      if !IsBlank(values) {
        rawData := rawData + [values];
      }
      k := k + 1;
    }
    assert lines[..k] == lines;
  }

  /** The per-column loop of readCSV, adding each kept column to the frame. */
  method ProcessColumns(df: DataFrame, rawData: seq<seq<string>>, names: seq<string>) returns (o: Outcome)
    requires df.Valid() && df.Table() == []
    requires rawData != [] && Rectangular(rawData, |names|)
    modifies df
    ensures df.Valid()
    ensures o.Pass? <==> Distinct(NamesOf(Entries(rawData, names, |names|)))
    ensures o.Fail? ==> o.error.InvalidArgument?
    ensures o.Pass? ==> df.Table() == Entries(rawData, names, |names|)
  {
    var col := 0;
    while col < |names|
      invariant 0 <= col <= |names|
      invariant df.Valid()
      invariant df.Table() == Entries(rawData, names, col)
      invariant df.Table() != [] ==> df.rows == |rawData|
    {
      o := AddColumn(df, rawData, names, col);
      if o.Fail? {
        return;
      }
      col := col + 1;
    }
    KeptTableDistinct(df, Entries(rawData, names, |names|));
    o := Pass;
  }

  /** A valid frame's table has distinct names. */
  lemma KeptTableDistinct(df: DataFrame, t: seq<(string, seq<real>)>)
    requires df.Valid() && df.Table() == t
    ensures Distinct(NamesOf(t))
  {
  }

  /** One column of the loop of readCSV, stated against the whole table. */
  method AddColumn(df: DataFrame, rawData: seq<seq<string>>, names: seq<string>, col: nat) returns (o: Outcome)
    requires col < |names| && rawData != [] && Rectangular(rawData, |names|)
    requires df.Valid() && df.Table() == Entries(rawData, names, col) && (df.Table() != [] ==> df.rows == |rawData|)
    modifies df
    ensures df.Valid()
    ensures o.Fail? ==> o.error.InvalidArgument? && !Distinct(NamesOf(Entries(rawData, names, |names|)))
    ensures o.Pass? ==> df.Table() == Entries(rawData, names, col + 1) && (df.Table() != [] ==> df.rows == |rawData|)
  {
    ghost var before := df.Table();
    o := ProcessColumn(df, rawData, col, names[col]);
    if o.Fail? {
      FailedColumnSpoils(rawData, names, col, before);
      return;
    }
    EntriesStep(rawData, names, col);
  }

  /** A column whose names clash with the earlier ones leaves the whole table with a clash. */
  lemma FailedColumnSpoils(rawData: seq<seq<string>>, names: seq<string>, col: nat,
                           before: seq<(string, seq<real>)>)
    requires col < |names| && Rectangular(rawData, |names|) && before == Entries(rawData, names, col)
    requires !Distinct(NamesOf(before + ColumnEntries(rawData, col, names[col])))
    ensures !Distinct(NamesOf(Entries(rawData, names, |names|)))
  {
    EntriesStep(rawData, names, col);
    LaterColumnsKeepDuplicate(rawData, names, col + 1, |names|);
  }

  lemma EntriesStep(rawData: seq<seq<string>>, names: seq<string>, col: nat)
    requires col < |names| && Rectangular(rawData, |names|)
    ensures Entries(rawData, names, col + 1) == Entries(rawData, names, col) + ColumnEntries(rawData, col, names[col])
  {
  }

  /** A repeated name in a prefix of the entries stays repeated in the whole table. */
  lemma DuplicateNamePersists(a: seq<(string, seq<real>)>, b: seq<(string, seq<real>)>)
    requires a <= b && !Distinct(NamesOf(a))
    ensures !Distinct(NamesOf(b))
  {
    NotDistinctExtends(NamesOf(a), NamesOf(b));
  }

  /** One pass of the column loop: date column, numeric column, or skipped. */
  method ProcessColumn(df: DataFrame, rawData: seq<seq<string>>, col: nat, name: string) returns (o: Outcome)
    requires df.Valid() && rawData != []
    requires forall i :: 0 <= i < |rawData| ==> col < |rawData[i]|
    requires df.Table() != [] ==> df.rows == |rawData|
    modifies df
    ensures df.Valid() && (df.Table() != [] ==> df.rows == |rawData|)
    ensures o.Fail? ==> o.error.InvalidArgument? && !Distinct(NamesOf(old(df.Table()) + ColumnEntries(rawData, col, name)))
    ensures o.Pass? ==> df.Table() == old(df.Table()) + ColumnEntries(rawData, col, name)
  {
    ghost var entries := ColumnEntries(rawData, col, name);
    var isDate := DetectDateColumn(rawData, col);
    if isDate {
      o := ProcessDateColumn(df, rawData, col, name);
    } else {
      var allNumeric := AllNumeric(rawData, col);
      if allNumeric {
        var columnData := NumericColumn(rawData, col);
        assert |entries| == 1 && entries[0].0 == name;
        assert entries[0].1 == columnData;
        var e := [(name, columnData)];
        assert e == entries;
        o := AddEntry(df, old(df.Table()), e, 0, |rawData|);
        assert e[..1] == e;
      } else {
        o := Pass;
        assert entries == [];
      }
    }
  }

  /** processDateColumn: adds name_year, name_month and name_day. */
  method ProcessDateColumn(df: DataFrame, rawData: seq<seq<string>>, col: nat, name: string) returns (o: Outcome)
    requires df.Valid() && rawData != []
    requires forall i :: 0 <= i < |rawData| ==> col < |rawData[i]|
    requires df.Table() != [] ==> df.rows == |rawData|
    modifies df
    ensures df.Valid() && (df.Table() != [] ==> df.rows == |rawData|)
    ensures o.Fail? ==> o.error.InvalidArgument? && !Distinct(NamesOf(old(df.Table()) + DateEntries(rawData, col, name)))
    ensures o.Pass? ==> df.Table() == old(df.Table()) + DateEntries(rawData, col, name)
  {
    ghost var spec := DateEntries(rawData, col, name);
    var years, months, days := [], [], [];
    var row := 0;
    while row < |rawData|
      invariant 0 <= row <= |rawData|
      invariant |years| == row && |months| == row && |days| == row
      invariant forall j :: 0 <= j < row ==> years[j] == spec[0].1[j] && months[j] == spec[1].1[j] && days[j] == spec[2].1[j]
    {
      var c := ExtractDateComponents(rawData[row][col]);
      years, months, days := years + [c.0 as real], months + [c.1 as real], days + [c.2 as real];
      row := row + 1;
    }
    assert years == spec[0].1 && months == spec[1].1 && days == spec[2].1;
    var e := [(name + "_year", years), (name + "_month", months), (name + "_day", days)];
    assert e == spec;
    ghost var t0 := df.Table();
    assert e[..0] == [];
    o := AddEntry(df, t0, e, 0, |rawData|);
    if o.Fail? {
      return;
    }
    o := AddEntry(df, t0, e, 1, |rawData|);
    if o.Fail? {
      return;
    }
    o := AddEntry(df, t0, e, 2, |rawData|);
    if o.Fail? {
      return;
    }
    assert e[..3] == e;
  }

  /** One addColumn call of readCSV; a refusal can only be a repeated name. */
  method AddEntry(df: DataFrame, ghost t0: seq<(string, seq<real>)>, e: seq<(string, seq<real>)>, k: nat, n: nat)
    returns (o: Outcome)
    requires df.Valid() && k < |e| && df.Table() == t0 + e[..k]
    requires |e[k].1| == n && (df.Table() != [] ==> df.rows == n)
    modifies df
    ensures df.Valid() && (df.Table() != [] ==> df.rows == n)
    ensures o.Fail? ==> o.error.InvalidArgument? && !Distinct(NamesOf(t0 + e))
    ensures o.Pass? ==> df.Table() == t0 + e[..k + 1]
  {
    o := df.AddColumn(e[k].0, e[k].1);
    if o.Fail? {
      assert e[k].0 in NamesOf(t0 + e[..k]);
      FailedAddIsDuplicate(t0, e, k);
    } else {
      assert e[..k + 1] == e[..k] + [e[k]];
    }
  }

  lemma FailedAddIsDuplicate(t: seq<(string, seq<real>)>, e: seq<(string, seq<real>)>, k: nat)
    requires k < |e| && e[k].0 in NamesOf(t + e[..k])
    ensures !Distinct(NamesOf(t + e))
  {
    var p := NamesOf(t + e[..k]);
    var i :| 0 <= i < |p| && p[i] == e[k].0;
    assert NamesOf(t + e)[i] == p[i];
    assert NamesOf(t + e)[|t| + k] == e[k].0;
  }

  /** The loop over the first min(rows, 5) values that looks for a date. */
  method DetectDateColumn(rawData: seq<seq<string>>, col: nat) returns (isDate: bool)
    requires forall i :: 0 <= i < |rawData| ==> col < |rawData[i]|
    ensures isDate <==> IsDateColumn(rawData, col)
  {
    var checkRows := if |rawData| < 5 then |rawData| else 5;
    var i := 0;
    while i < checkRows
      invariant 0 <= i <= checkRows
      invariant forall j :: 0 <= j < i ==> !IsDateFormat(rawData[j][col])
    {
      if IsDateFormat(rawData[i][col]) {
        return true;
      }
      i := i + 1;
    }
    return false;
  }

  method AllNumeric(rawData: seq<seq<string>>, col: nat) returns (allNumeric: bool)
    requires forall i :: 0 <= i < |rawData| ==> col < |rawData[i]|
    ensures allNumeric <==> IsNumericColumn(rawData, col)
  {
    var i := 0;
    while i < |rawData|
      invariant 0 <= i <= |rawData|
      invariant forall j :: 0 <= j < i ==> NumericShape(rawData[j][col])
    {
      var b := IsNumeric(rawData[i][col]);
      if !b {
        return false;
      }
      i := i + 1;
    }
    return true;
  }

  /** The std::stod loop over a numeric column. */
  method NumericColumn(rawData: seq<seq<string>>, col: nat) returns (columnData: seq<real>)
    requires forall i :: 0 <= i < |rawData| ==> col < |rawData[i]|
    requires IsNumericColumn(rawData, col)
    ensures |columnData| == |rawData|
    ensures forall i :: 0 <= i < |rawData| ==> columnData[i] == NumericValue(rawData[i][col])
  {
    columnData := [];
    var i := 0;
    while i < |rawData|
      invariant 0 <= i <= |rawData|
      invariant |columnData| == i
      invariant forall j :: 0 <= j < i ==> columnData[j] == NumericValue(rawData[j][col])
    {
      columnData := columnData + [NumericValue(rawData[i][col])];
      i := i + 1;
    }
  }
}
