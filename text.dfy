/**
 * String helpers shared by the upload validator, the download-name rule and
 * the preview's error classification. A Dafny `char` is a Unicode scalar
 * value, not a UTF-16 code unit as in JavaScript, so lengths differ for
 * characters outside the Basic Multilingual Plane. No modelled behaviour
 * depends on this: every searched-for text is ASCII, and the binary string
 * `atob` gives holds only codes below 256.
 */
module Text {

  /** Lower-cases an ASCII capital letter and leaves every other character alone. */
  function LowerChar(c: char): char
  {
    if 'A' <= c <= 'Z' then (c as int + 32) as char else c
  }

  /** Character-wise lower-casing (the ASCII part of `String.prototype.toLowerCase`). */
  function Lower(s: string): (r: string)
    ensures |r| == |s|
    ensures forall i :: 0 <= i < |s| ==> r[i] == LowerChar(s[i])
  {
    seq(|s|, i requires 0 <= i < |s| => LowerChar(s[i]))
  }

  /** `s.endsWith(suffix)` */
  predicate EndsWith(s: string, suffix: string)
  {
    |suffix| <= |s| && s[|s| - |suffix|..] == suffix
  }

  /**
   * The name ends in ".pdf" in any letter case: `name.toLowerCase().endsWith(".pdf")`,
   * which is also what `/\.pdf$/i` matches.
   */
  predicate EndsWithPdf(name: string)
  {
    EndsWith(Lower(name), ".pdf")
  }

  /** The last four characters of the name, letter by letter: a dot, then p, d and f in either case. */
  lemma EndsWithPdfByLetters(name: string)
    ensures EndsWithPdf(name) <==>
      && |name| >= 4
      && name[|name| - 4] == '.'
      && name[|name| - 3] in {'p', 'P'}
      && name[|name| - 2] in {'d', 'D'}
      && name[|name| - 1] in {'f', 'F'}
  {
    var low := Lower(name);
    if |name| >= 4 {
      var n := |name|;
      assert low[n - 4..] == [low[n - 4], low[n - 3], low[n - 2], low[n - 1]];
    }
  }

  /** `t` occurs in `s` starting at position `i`. */
  predicate OccursAt(s: string, t: string, i: int)
  {
    0 <= i <= |s| - |t| && s[i..i + |t|] == t
  }

  /** `s.includes(t)`: `t` occurs in `s` at some position. */
  predicate Contains(s: string, t: string)
  {
    exists i | 0 <= i <= |s| - |t| :: OccursAt(s, t, i)
  }

  /** A string none of whose characters is the first character of `t` does not contain `t`. */
  lemma NotContainsWithoutFirstChar(s: string, t: string)
    requires |t| > 0
    requires forall i :: 0 <= i < |s| ==> s[i] != t[0]
    ensures !Contains(s, t)
  {
    forall i | 0 <= i <= |s| - |t| ensures !OccursAt(s, t, i) {
      assert s[i..i + |t|][0] == s[i];
    }
  }

  /** A string in which the first two characters of `t` never stand side by side does not contain `t`. */
  lemma NotContainsWithoutFirstPair(s: string, t: string)
    requires |t| > 1
    requires forall i :: 0 <= i < |s| - 1 ==> !(s[i] == t[0] && s[i + 1] == t[1])
    ensures !Contains(s, t)
  {
    forall i | 0 <= i <= |s| - |t| ensures !OccursAt(s, t, i) {
      assert s[i..i + |t|][0] == s[i] && s[i..i + |t|][1] == s[i + 1];
    }
  }
}
