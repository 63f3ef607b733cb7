/**
  Anchored regular expressions of fixed length, such as `/^[A-Z]{5}[0-9]{4}[A-Z]{1}$/`:
  a sequence of character classes, one per position. A string matches when it
  has one character per class and each character is in its class.
 */
module Patterns {
  import opened Js

  type CharClass = char -> bool

  /** The string matches the anchored pattern `classes`. */
  predicate Fits(s: string, classes: seq<CharClass>) {
    |s| == |classes| && forall i | 0 <= i < |s| :: classes[i](s[i])
  }

  /** `c{n}`. */
  function Repeat(c: CharClass, n: nat): (r: seq<CharClass>)
    ensures |r| == n && forall i | 0 <= i < n :: r[i] == c
  {
    seq(n, _ => c)
  }

  /** A string matches a concatenation of patterns exactly when it splits into
      pieces that match each. */
  lemma FitsConcat(s: string, a: seq<CharClass>, b: seq<CharClass>)
    ensures Fits(s, a + b) <==> |s| == |a| + |b| && Fits(s[..|a|], a) && Fits(s[|a|..], b)
  {
    if |s| == |a| + |b| {
      if Fits(s[..|a|], a) && Fits(s[|a|..], b) {
        forall i | 0 <= i < |s| ensures (a + b)[i](s[i]) {
          if i < |a| {
            assert s[..|a|][i] == s[i];
          } else {
            assert s[|a|..][i - |a|] == s[i];
          }
        }
      }
      if Fits(s, a + b) {
        forall i | 0 <= i < |a| ensures a[i](s[..|a|][i]) {
          assert (a + b)[i] == a[i];
        }
        forall i | 0 <= i < |b| ensures b[i](s[|a|..][i]) {
          assert (a + b)[|a| + i] == b[i];
        }
      }
    }
  }

  predicate IsHexDigit(c: char) {
    IsDigit(c) || 'a' <= c <= 'f' || 'A' <= c <= 'F'
  }

  /** `[A-Z0-9]`. */
  predicate IsUpperAlnum(c: char) {
    IsUpperLetter(c) || IsDigit(c)
  }

  /** `[1-9]`. */
  predicate IsNonZeroDigit(c: char) {
    '1' <= c <= '9'
  }

  /** `toUpperCase` turns exactly the letters into capitals and keeps digits. */
  lemma UpperCharClasses(c: char)
    ensures IsUpperLetter(UpperChar(c)) <==> IsLetter(c)
    ensures IsDigit(UpperChar(c)) <==> IsDigit(c)
    ensures IsDigit(c) ==> UpperChar(c) == c
  {
  }

  /** `toLowerCase` keeps hex digits hex digits, and keeps every other
      character outside the class. */
  lemma LowerCharClasses(c: char)
    ensures IsHexDigit(LowerChar(c)) <==> IsHexDigit(c)
    ensures LowerChar(c) == '0' <==> c == '0'
    ensures LowerChar(c) == 'x' <==> c == 'x' || c == 'X'
  {
  }
}
