/** The string primitives the forms and the search box rely on, over ASCII:
    `toLowerCase`, `includes`, `trim` and the `\s` / `\S` character classes. */
module Strings {

  /** The ASCII characters matched by `\s` (and removed by `trim`). */
  predicate IsSpace(c: char) {
    c == ' ' || c == '\t' || c == '\n' || c == '\r' || c == '\U{000B}' || c == '\U{000C}'
  }

  /** The characters `.` does not match in a JavaScript regular expression. */
  predicate IsLineTerminator(c: char) {
    c == '\n' || c == '\r' || c == '\U{2028}' || c == '\U{2029}'
  }

  predicate IsLower(c: char) { 'a' <= c <= 'z' }
  predicate IsUpper(c: char) { 'A' <= c <= 'Z' }
  predicate IsDigit(c: char) { '0' <= c <= '9' }

  function LowerChar(c: char): (d: char)
    ensures IsUpper(c) ==> IsLower(d) && d as int == c as int + 32
    ensures !IsUpper(c) ==> d == c
  {
    if IsUpper(c) then (c as int + 32) as char else c
  }

  /** `s.toLowerCase()` on ASCII letters. */
  function Lower(s: string): (r: string)
    ensures |r| == |s|
    ensures forall i :: 0 <= i < |s| ==> r[i] == LowerChar(s[i])
  {
    seq(|s|, i requires 0 <= i < |s| => LowerChar(s[i]))
  }

  /** `needle` occurs in `hay` starting at position `i`. */
  predicate OccursAt(hay: string, needle: string, i: int) {
    0 <= i && i + |needle| <= |hay| && hay[i..i + |needle|] == needle
  }

  /** `hay.includes(needle)`, searching left to right. */
  function Includes(hay: string, needle: string): (b: bool)
    ensures b <==> exists i :: OccursAt(hay, needle, i)
    decreases |hay|
  {
    if |needle| > |hay| then false
    else if hay[..|needle|] == needle then
      assert OccursAt(hay, needle, 0);
      true
    else
      var rest := Includes(hay[1..], needle);
      if rest then
        var i :| OccursAt(hay[1..], needle, i);
        OccursShift(hay, needle, i + 1);
        true
      else
        forall i | OccursAt(hay, needle, i) ensures false {
          OccursShift(hay, needle, i);
        }
        false
  }

  /** An occurrence past the first position is an occurrence in the tail. */
  lemma OccursShift(hay: string, needle: string, i: int)
    requires 1 <= i && hay != []
    ensures OccursAt(hay, needle, i) <==> OccursAt(hay[1..], needle, i - 1)
  {
    if i + |needle| <= |hay| {
      assert hay[1..][i - 1..i - 1 + |needle|] == hay[i..i + |needle|];
    }
  }

  /** Every string includes the empty string. */
  lemma IncludesEmpty(hay: string)
    ensures Includes(hay, "")
  {
    assert OccursAt(hay, "", 0);
  }

  predicate AllSpace(s: string) {
    forall i :: 0 <= i < |s| ==> IsSpace(s[i])
  }

  /** The characters of `s` from `lo` up to `hi` are all whitespace. */
  predicate SpaceBetween(s: string, lo: int, hi: int) {
    0 <= lo <= hi <= |s| && forall k | lo <= k < hi :: IsSpace(s[k])
  }

  /** How many whitespace characters `s` starts with. */
  function LeadingSpaces(s: string): (n: nat)
    ensures n <= |s| && SpaceBetween(s, 0, n)
    ensures n < |s| ==> !IsSpace(s[n])
  {
    if s == [] || !IsSpace(s[0]) then 0
    else
      var n := LeadingSpaces(s[1..]);
      assert forall k | 1 <= k < |s| :: s[1..][k - 1] == s[k];
      n + 1
  }

  /** Where the trailing whitespace of `s` begins. */
  function TrailingStart(s: string): (e: nat)
    ensures e <= |s| && SpaceBetween(s, e, |s|)
    ensures e > 0 ==> !IsSpace(s[e - 1])
  {
    if s == [] || !IsSpace(s[|s| - 1]) then |s|
    else TrailingStart(s[..|s| - 1])
  }

  /** `s.trimStart()`: drops the leading whitespace. */
  function TrimStart(s: string): string
  {
    s[LeadingSpaces(s)..]
  }

  /** `s.trimEnd()`: drops the trailing whitespace. */
  function TrimEnd(s: string): string
  {
    s[..TrailingStart(s)]
  }

  /** `s.trim()`: the middle of `s` between leading and trailing whitespace. */
  function Trim(s: string): (r: string)
    ensures exists i :: 0 <= i <= i + |r| <= |s| && r == s[i..i + |r|]
                        && SpaceBetween(s, 0, i) && SpaceBetween(s, i + |r|, |s|)
    ensures r == [] || (!IsSpace(r[0]) && !IsSpace(r[|r| - 1]))
  {
    var t := TrimStart(s);
    var r := TrimEnd(t);
    TrimIsMiddle(s, LeadingSpaces(s), t, TrailingStart(t), r);
    r
  }

  /** Cutting the leading whitespace and then the trailing whitespace leaves the
      middle of `s`, with whitespace only on either side. */
  lemma TrimIsMiddle(s: string, i: int, t: string, e: int, r: string)
    requires 0 <= i <= |s| && t == s[i..] && SpaceBetween(s, 0, i) && (i < |s| ==> !IsSpace(s[i]))
    requires 0 <= e <= |t| && r == t[..e] && SpaceBetween(t, e, |t|) && (e > 0 ==> !IsSpace(t[e - 1]))
    ensures 0 <= i <= i + |r| <= |s| && r == s[i..i + |r|]
    ensures SpaceBetween(s, 0, i) && SpaceBetween(s, i + |r|, |s|)
    ensures r == [] || (!IsSpace(r[0]) && !IsSpace(r[|r| - 1]))
  {
    forall k | i + e <= k < |s| ensures IsSpace(s[k]) {
      assert s[k] == t[k - i];
    }
    if r != [] {
      assert r[0] == s[i];
    }
  }

  /** `trim()` yields the empty string exactly when `s` is all whitespace. */
  lemma TrimEmptyIffAllSpace(s: string)
    ensures Trim(s) == [] <==> AllSpace(s)
  {
    var r := Trim(s);
    var i :| 0 <= i <= i + |r| <= |s| && r == s[i..i + |r|] && SpaceBetween(s, 0, i) && SpaceBetween(s, i + |r|, |s|);
    MiddleEmptyIffAllSpace(s, r, i);
  }

  /** A middle with whitespace only around it, and not starting with whitespace,
      is empty exactly when the whole string is whitespace. */
  lemma MiddleEmptyIffAllSpace(s: string, r: string, i: int)
    requires 0 <= i <= i + |r| <= |s| && r == s[i..i + |r|]
    requires SpaceBetween(s, 0, i) && SpaceBetween(s, i + |r|, |s|)
    requires r == [] || !IsSpace(r[0])
    ensures r == [] <==> AllSpace(s)
  {
    if r != [] {
      assert s[i] == r[0];
    }
  }
}
