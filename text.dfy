/**
 * The string operations the validators call: `trim()` and `toLowerCase()`,
 * restricted to ASCII (the whitespace set of `trim` is the ASCII part of
 * JavaScript's, and only 'A'..'Z' have a lower-case form here).
 */
module Text {

  /** ASCII whitespace and line terminators, as `trim()` removes them. */
  predicate IsSpace(c: char)
  {
    c == ' ' || c == '\t' || c == '\n' || c == '\r' || c == '\U{0B}' || c == '\U{0C}'
  }

  predicate AllSpace(s: string)
  {
    forall i :: 0 <= i < |s| ==> IsSpace(s[i])
  }

  /** The index of the first non-blank character of `s` at or after `i` (`|s|` if none). */
  function SkipSpace(s: string, i: nat): (n: nat)
    requires i <= |s|
    ensures i <= n <= |s|
    ensures forall j :: i <= j < n ==> IsSpace(s[j])
    ensures n < |s| ==> !IsSpace(s[n])
    decreases |s| - i
  {
    if i < |s| && IsSpace(s[i]) then SkipSpace(s, i + 1) else i
  }

  /** The index just after the last non-blank character of `s[lo..hi]` (`lo` if none). */
  function SkipSpaceBack(s: string, lo: nat, hi: nat): (e: nat)
    requires lo <= hi <= |s|
    ensures lo <= e <= hi
    ensures forall j :: e <= j < hi ==> IsSpace(s[j])
    ensures e > lo ==> !IsSpace(s[e - 1])
    decreases hi
  {
    if hi > lo && IsSpace(s[hi - 1]) then SkipSpaceBack(s, lo, hi - 1) else hi
  }

  /** How many characters `trim()` drops from the front of `s`. */
  function LeadingSpace(s: string): (n: nat)
    ensures n <= |s|
  {
    SkipSpace(s, 0)
  }

  /**
   * `s.trim()`: the infix of `s` that starts after its leading whitespace and
   * neither starts nor ends with whitespace; empty exactly when `s` is blank.
   */
  function Trim(s: string): (r: string)
    ensures LeadingSpace(s) + |r| <= |s| && r == s[LeadingSpace(s)..LeadingSpace(s) + |r|]
    ensures forall j :: 0 <= j < LeadingSpace(s) ==> IsSpace(s[j])
    ensures forall j :: LeadingSpace(s) + |r| <= j < |s| ==> IsSpace(s[j])
    ensures r != [] ==> !IsSpace(r[0]) && !IsSpace(r[|r| - 1])
    ensures r == [] <==> AllSpace(s)
  {
    var n := SkipSpace(s, 0);
    var e := SkipSpaceBack(s, n, |s|);
    assert n < |s| ==> e > n;
    s[n..e]
  }

  function LowerChar(c: char): char
  {
    if 'A' <= c <= 'Z' then (c as int - 'A' as int + 'a' as int) as char else c
  }

  /** `s.toLowerCase()`: each upper-case letter moves up by 32 code points, all else is kept. */
  function ToLower(s: string): (r: string)
    ensures |r| == |s|
    ensures forall i :: 0 <= i < |s| && 'A' <= s[i] <= 'Z' ==> r[i] as int == s[i] as int + 32
    ensures forall i :: 0 <= i < |s| && !('A' <= s[i] <= 'Z') ==> r[i] == s[i]
    ensures forall i :: 0 <= i < |r| ==> !('A' <= r[i] <= 'Z')
  {
    seq(|s|, i requires 0 <= i < |s| => LowerChar(s[i]))
  }
}
