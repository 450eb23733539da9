/**
 * Decimal digits and std::to_string on non-negative integers, used for the
 * generated names "Column<k>", "Variable_<k>" and "hidden_layer_<k>_size",
 * and for reading the digit groups of dates and numbers.
 */
module Strings {
  predicate IsDigit(c: char) { '0' <= c <= '9' }

  predicate AllDigits(s: string) { forall i :: 0 <= i < |s| ==> IsDigit(s[i]) }

  function DigitChar(d: nat): (c: char)
    requires d < 10
    ensures IsDigit(c) && c as int - '0' as int == d
  {
    ('0' as int + d) as char
  }

  /** std::to_string of a non-negative integer: its decimal digits, no sign, no leading zero. */
  function NatToString(n: nat): (s: string)
    ensures |s| >= 1 && AllDigits(s)
    ensures |s| > 1 ==> s[0] != '0'
    decreases n
  {
    if n < 10 then [DigitChar(n)] else NatToString(n / 10) + [DigitChar(n % 10)]
  }

  /** std::to_string of an int: a minus sign before the digits of a negative value. */
  function IntToString(i: int): (s: string)
    ensures |s| >= 1
    ensures i >= 0 <==> s[0] != '-'
  {
    if i >= 0 then NatToString(i) else "-" + NatToString(-i)
  }

  /** The value of a string of decimal digits, as std::stoi reads it; "" reads as 0. */
  function DigitsValue(s: string): nat
    requires AllDigits(s)
  {
    if s == [] then 0 else DigitsValue(s[..|s| - 1]) * 10 + (s[|s| - 1] as int - '0' as int)
  }

  lemma {:induction false} DigitsValueOfNatToString(n: nat)
    ensures DigitsValue(NatToString(n)) == n
    decreases n
  {
    if n >= 10 {
      DigitsValueOfNatToString(n / 10);
      var s := NatToString(n);
      assert s[..|s| - 1] == NatToString(n / 10);
    }
  }

  /** Distinct numbers print as distinct strings, so generated names never clash. */
  lemma NatToStringInjective(a: nat, b: nat)
    ensures NatToString(a) == NatToString(b) ==> a == b
  {
    DigitsValueOfNatToString(a);
    DigitsValueOfNatToString(b);
  }

  lemma {:induction false} NatToStringLength(n: nat)
    ensures n < 10 ==> |NatToString(n)| == 1
    ensures 10 <= n < 100 ==> |NatToString(n)| == 2
    ensures 1000 <= n < 10000 ==> |NatToString(n)| == 4
    decreases n
  {
    if n >= 10 {
      NatToStringLength(n / 10);
      if n >= 1000 {
        NatToStringLength(n / 100);
        NatToStringLength(n / 1000);
      }
    }
  }

  /** The string "<prefix><k>" for k taken from a range, e.g. Column1..ColumnN. */
  function NumberedNames(prefix: string, first: nat, count: nat): (r: seq<string>)
    ensures |r| == count
    decreases count
  {
    if count == 0 then [] else [prefix + NatToString(first)] + NumberedNames(prefix, first + 1, count - 1)
  }

  /** Name i of the range is the prefix followed by first + i. */
  lemma {:induction false} NumberedNamesAt(prefix: string, first: nat, count: nat)
    ensures forall i :: 0 <= i < count ==> NumberedNames(prefix, first, count)[i] == prefix + NatToString(first + i)
    decreases count
  {
    if count > 0 {
      NumberedNamesAt(prefix, first + 1, count - 1);
    }
  }

  predicate Distinct<T(==)>(s: seq<T>) { forall i, j :: 0 <= i < j < |s| ==> s[i] != s[j] }

  lemma NumberedNamesDistinct(prefix: string, first: nat, count: nat)
    ensures Distinct(NumberedNames(prefix, first, count))
  {
    var r := NumberedNames(prefix, first, count);
    NumberedNamesAt(prefix, first, count);
    forall i, j | 0 <= i < j < count ensures r[i] != r[j] {
      if r[i] == r[j] {
        assert NatToString(first + i) == r[i][|prefix|..];
        assert NatToString(first + j) == r[j][|prefix|..];
        NatToStringInjective(first + i, first + j);
      }
    }
  }
}
