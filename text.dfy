/**
 * Strings as JavaScript's `String.prototype.toLowerCase` and
 * `String.prototype.includes` see them, restricted to ASCII case folding.
 */
module Text {

  predicate IsAsciiUpper(c: char) {
    'A' <= c <= 'Z'
  }

  /** Case folding of one character: ASCII upper-case letters become lower-case, every other character is kept. */
  function LowerChar(c: char): (d: char)
    ensures !IsAsciiUpper(d)
    ensures !IsAsciiUpper(c) ==> d == c
    ensures IsAsciiUpper(c) ==> 'a' <= d <= 'z' && d as int - 'a' as int == c as int - 'A' as int
  {
    if IsAsciiUpper(c) then (c as int - 'A' as int + 'a' as int) as char else c
  }

  /** `s.toLowerCase()`, character by character. */
  function Lower(s: string): (r: string)
    ensures |r| == |s|
    ensures forall i :: 0 <= i < |s| ==> r[i] == LowerChar(s[i])
  {
    seq(|s|, i requires 0 <= i < |s| => LowerChar(s[i]))
  }

  /** Lower-casing twice is lower-casing once. */
  lemma LowerIdempotent(s: string)
    ensures Lower(Lower(s)) == Lower(s)
  {
  }

  /** Lower-casing commutes with taking a slice. */
  lemma LowerSlice(s: string, i: nat, j: nat)
    requires i <= j <= |s|
    ensures Lower(s[i..j]) == Lower(s)[i..j]
  {
  }

  predicate StartsWith(s: string, k: string) {
    |k| <= |s| && s[..|k|] == k
  }

  /** The reference meaning of "k occurs in s": some suffix of s starts with k. */
  ghost predicate IsSubstring(k: string, s: string) {
    exists i :: 0 <= i <= |s| && StartsWith(s[i..], k)
  }

  /** `s.includes(k)`: scan the start positions of s from left to right. */
  function Contains(s: string, k: string): (b: bool)
    ensures b <==> IsSubstring(k, s)
    decreases |s|
  {
    if StartsWith(s, k) then
      assert s[0..] == s;
      true
    else if s == [] then
      false
    else
      assert forall i :: 1 <= i <= |s| ==> s[1..][i - 1..] == s[i..];
      Contains(s[1..], k)
  }

  /** An occurrence of an occurrence is an occurrence. */
  lemma SubstringTransitive(a: string, b: string, c: string)
    requires IsSubstring(a, b) && IsSubstring(b, c)
    ensures IsSubstring(a, c)
  {
    var i :| 0 <= i <= |b| && StartsWith(b[i..], a);
    var j :| 0 <= j <= |c| && StartsWith(c[j..], b);
    forall n | 0 <= n < |a|
      ensures c[j + i..][n] == a[n]
    {
      calc {
        c[j + i..][n];
        c[j..][..|b|][i + n];
        b[i + n];
        b[i..][..|a|][n];
      }
    }
    assert c[j + i..][..|a|] == a;
  }

  /** Lower-casing keeps occurrences: if k occurs in s, lower(k) occurs in lower(s). */
  lemma LowerKeepsSubstring(k: string, s: string)
    requires IsSubstring(k, s)
    ensures IsSubstring(Lower(k), Lower(s))
  {
    var i :| 0 <= i <= |s| && StartsWith(s[i..], k);
    assert s[i..][..|k|] == s[i..i + |k|];
    LowerSlice(s, i, i + |k|);
    assert Lower(s)[i..][..|k|] == Lower(s)[i..i + |k|];
    assert StartsWith(Lower(s)[i..], Lower(k));
  }

  /** Every character of an occurring string occurs. */
  lemma {:induction false} OccurrenceHasChar(k: string, s: string, j: nat)
    requires j < |k|
    ensures IsSubstring(k, s) ==> exists i :: 0 <= i < |s| && s[i] == k[j]
  {
    if IsSubstring(k, s) {
      var i :| 0 <= i <= |s| && StartsWith(s[i..], k);
      assert s[i..][..|k|][j] == s[i + j];
    }
  }

  /** Every occurrence of k in s puts each pair of adjacent characters of k side by side in s. */
  lemma {:induction false} OccurrenceHasPair(k: string, s: string, j: nat)
    requires j + 1 < |k|
    ensures IsSubstring(k, s) ==> exists i :: 0 <= i < |s| - 1 && s[i] == k[j] && s[i + 1] == k[j + 1]
  {
    if IsSubstring(k, s) {
      var i :| 0 <= i <= |s| && StartsWith(s[i..], k);
      assert s[i..][..|k|][j] == s[i + j];
      assert s[i..][..|k|][j + 1] == s[i + j + 1];
    }
  }
}
