/**
 * std::replace over the characters of a std::string: every occurrence of
 * one character is overwritten by another, in place. Used for the default
 * plot file name and for paths handed to Python.
 */
module CharReplace {

  /** s with every `from` changed to `to`, position by position. */
  function Replaced(s: string, from: char, to: char): (r: string)
  {
    seq(|s|, i requires 0 <= i < |s| => if s[i] == from then to else s[i])
  }

  /** The length is kept; each `from` becomes `to` and every other
      character stays where it was; afterwards no `from` is left (unless it
      is `to`), so replacing again changes nothing. */
  lemma ReplacedFacts(s: string, from: char, to: char)
    ensures |Replaced(s, from, to)| == |s|
    ensures forall i :: 0 <= i < |s| ==>
      Replaced(s, from, to)[i] == (if s[i] == from then to else s[i])
    ensures from != to ==> from !in Replaced(s, from, to)
    ensures Replaced(Replaced(s, from, to), from, to) == Replaced(s, from, to)
  {
  }

  /** std::replace(a.begin(), a.end(), from, to). */
  method ReplaceInPlace(a: array<char>, from: char, to: char)
    modifies a
    ensures a[..] == Replaced(old(a[..]), from, to)
  {
    var i := 0;
    while i < a.Length
      invariant 0 <= i <= a.Length
      invariant forall k :: 0 <= k < i ==> a[k] == (if old(a[k]) == from then to else old(a[k]))
      invariant forall k :: i <= k < a.Length ==> a[k] == old(a[k])
    {
      if a[i] == from {
        a[i] := to;
      }
      i := i + 1;
    }
  }

  /** A copy of s in a fresh array, as std::string's copy constructor. */
  method ToArray(s: string) returns (a: array<char>)
    ensures fresh(a) && a[..] == s
  {
    a := new char[|s|](i requires 0 <= i < |s| => s[i]);
  }
}
