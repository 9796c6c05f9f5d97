/** The handful of Python built-ins the core relies on: `str.lower`,
    substring containment (`k in s`), `any` and `all`. */
module Builtins {

  /** Python's `c.lower()` on one code point, for the letters the chatbot's
      tables and diacritic set use: ASCII, the Latin-1 Supplement capitals,
      the Vietnamese capitals of Latin Extended-A/B and the Vietnamese
      block U+1EA0..U+1EF9 (capital at the even code point, small letter
      right after it). Every other code point is left unchanged. */
  function LowerChar(c: char): (r: char)
    ensures 'A' <= c <= 'Z' ==> r as int == c as int + 32
    ensures 'a' <= c <= 'z' ==> r == c
    ensures r == c || r as int == c as int + 32 || r as int == c as int + 1
  {
    var n := c as int;
    if 'A' <= c <= 'Z' then (n + 32) as char
    else if 0xC0 <= n <= 0xDE && n != 0xD7 then (n + 32) as char
    else if n == 0x102 || n == 0x110 || n == 0x128 || n == 0x168 || n == 0x1A0 || n == 0x1AF then (n + 1) as char
    else if 0x1EA0 <= n <= 0x1EF8 && n % 2 == 0 then (n + 1) as char
    else c
  }

  /** Python's `s.lower()`, code point by code point. */
  function Lower(s: string): (r: string)
    ensures |r| == |s|
    ensures forall i :: 0 <= i < |s| ==> r[i] == LowerChar(s[i])
  {
    seq(|s|, i requires 0 <= i < |s| => LowerChar(s[i]))
  }

  /** Lower-casing twice is lower-casing once. */
  lemma LowerIdempotent(s: string)
    ensures Lower(Lower(s)) == Lower(s)
  {
    assert forall i :: 0 <= i < |s| ==> LowerChar(LowerChar(s[i])) == LowerChar(s[i]);
  }

  /** `k` occurs in `s` starting at position `i`. */
  ghost predicate OccursAt(s: string, k: string, i: int)
  {
    0 <= i && i + |k| <= |s| && s[i..i + |k|] == k
  }

  /** Python's `k in s` for two strings: a left-to-right scan for the first
      position where `k` starts. The empty string occurs in every string. */
  function Contains(s: string, k: string): (r: bool)
    ensures r <==> exists i :: OccursAt(s, k, i)
    decreases |s|
  {
    if |k| > |s| then false
    else if s[..|k|] == k then assert OccursAt(s, k, 0); true
    else
      var r := Contains(s[1..], k);
      assert r ==> exists i :: OccursAt(s, k, i) by {
        if r {
          var j :| OccursAt(s[1..], k, j);
          assert s[j + 1..j + 1 + |k|] == s[1..][j..j + |k|];
          assert OccursAt(s, k, j + 1);
        }
      }
      assert (exists i :: OccursAt(s, k, i)) ==> r by {
        if i :| OccursAt(s, k, i) {
          assert i != 0;
          assert s[1..][i - 1..i - 1 + |k|] == s[i..i + |k|];
          assert OccursAt(s[1..], k, i - 1);
        }
      }
      r
  }

  /** A string occurs at the end of anything it is appended to. */
  lemma ContainsSuffix(a: string, k: string)
    ensures Contains(a + k, k)
  {
    assert (a + k)[|a|..|a| + |k|] == k;
    assert OccursAt(a + k, k, |a|);
  }

  /** Appending keeps every occurrence. */
  lemma ContainsExtend(s: string, t: string, k: string)
    requires Contains(s, k)
    ensures Contains(s + t, k)
  {
    var i :| OccursAt(s, k, i);
    assert (s + t)[i..i + |k|] == s[i..i + |k|];
    assert OccursAt(s + t, k, i);
  }

  /** Python's `any(c in chars for c in s)`. */
  function AnyCharIn(s: string, chars: string): (r: bool)
    ensures r <==> exists i :: 0 <= i < |s| && s[i] in chars
  {
    if |s| == 0 then false
    else if s[0] in chars then true
    else
      var r := AnyCharIn(s[1..], chars);
      assert forall i :: 1 <= i < |s| ==> s[i] == s[1..][i - 1];
      r
  }

  /** Python's `all(bs)` over a list of booleans. */
  function All(bs: seq<bool>): (r: bool)
    ensures r <==> forall i :: 0 <= i < |bs| ==> bs[i]
  {
    if |bs| == 0 then true
    else
      var r := All(bs[1..]);
      assert forall i :: 1 <= i < |bs| ==> bs[i] == bs[1..][i - 1];
      bs[0] && r
  }
}
