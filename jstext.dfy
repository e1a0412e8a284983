/** The two JavaScript string operations the dashboard relies on. */
module JsText {

  /** `Math.min(a, b)`. */
  function Min(a: int, b: int): (m: int)
    ensures m <= a && m <= b
    ensures m == a || m == b
  {
    if a < b then a else b
  }

  /** `Math.min(Math.max(i, 0), len)`: how `String.prototype.substring`
      clamps an index. */
  function ClampIndex(i: int, len: nat): (k: nat)
    ensures k <= len
    ensures 0 <= i <= len ==> k == i
    ensures i < 0 ==> k == 0
    ensures i > len ==> k == len
  {
    if i < 0 then 0 else if i > len then len else i
  }

  /** `s.substring(start, end)`: both indices are clamped into `[0, |s|]`
      and swapped when the first is the larger. */
  function Substring(s: string, start: int, end: int): (r: string)
    ensures |r| <= |s|
    // indices inside the text: the slice between them, in either order
    ensures 0 <= start <= end <= |s| ==> r == s[start..end]
    ensures 0 <= end <= start <= |s| ==> r == s[end..start]
    // an index before the text counts as 0, one past it as the length
    ensures start <= 0 <= end <= |s| ==> r == s[..end]
    ensures end <= 0 <= start <= |s| ==> r == s[..start]
    ensures 0 <= start <= |s| <= end ==> r == s[start..]
    ensures 0 <= end <= |s| <= start ==> r == s[end..]
    ensures (start <= 0 && |s| <= end) || (end <= 0 && |s| <= start) ==> r == s
    ensures (start <= 0 && end <= 0) || (start >= |s| && end >= |s|) ==> r == []
  {
    var a, b := ClampIndex(start, |s|), ClampIndex(end, |s|);
    if a <= b then s[a..b] else s[b..a]
  }

  /** The order of the two indices does not matter. */
  lemma SubstringSymmetric(s: string, start: int, end: int)
    ensures Substring(s, start, end) == Substring(s, end, start)
  {
  }

  /** `s.substring(start)`: the one-argument form runs to the end. */
  function SubstringFrom(s: string, start: int): (r: string)
    ensures start <= 0 ==> r == s
    ensures 0 <= start <= |s| ==> r == s[start..]
    ensures start >= |s| ==> r == []
  {
    Substring(s, start, |s|)
  }

  /** `toLowerCase` on the ASCII letters; addresses are hexadecimal text, so
      no other letters occur in them. */
  function LowerChar(c: char): (d: char)
    ensures 'A' <= c <= 'Z' ==> d == (c as int + 32) as char
    ensures !('A' <= c <= 'Z') ==> d == c
    ensures !('A' <= d <= 'Z')
  {
    if 'A' <= c <= 'Z' then (c as int + 32) as char else c
  }

  function ToLower(s: string): (r: string)
    ensures |r| == |s|
    ensures forall i :: 0 <= i < |s| ==> r[i] == LowerChar(s[i])
  {
    seq(|s|, i requires 0 <= i < |s| => LowerChar(s[i]))
  }

  /** `a.toLowerCase() === b.toLowerCase()`. */
  predicate EqualsIgnoringCase(a: string, b: string) {
    ToLower(a) == ToLower(b)
  }

  /** Case-insensitive equality is an equivalence that includes plain
      equality and ignores the case of any letter. */
  lemma EqualsIgnoringCaseIsEquivalence(a: string, b: string, c: string)
    ensures a == b ==> EqualsIgnoringCase(a, b)
    ensures EqualsIgnoringCase(a, b) ==> EqualsIgnoringCase(b, a)
    ensures EqualsIgnoringCase(a, b) && EqualsIgnoringCase(b, c) ==> EqualsIgnoringCase(a, c)
    ensures EqualsIgnoringCase(a, b) ==> |a| == |b|
  {
  }

  /** Lower-casing twice is lower-casing once: a lowered address compares
      equal to itself ignoring case. */
  lemma ToLowerIdempotent(s: string)
    ensures ToLower(ToLower(s)) == ToLower(s)
    ensures EqualsIgnoringCase(ToLower(s), s)
  {
  }
}
