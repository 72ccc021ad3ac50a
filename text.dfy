// The string operations the resolver applies to user-agent data:
// Ruby's `String#include?`, and the leftmost-match search that the
// pattern `(?<=Chrome\/)[^ ]*` performs when a string is indexed by it.
module Text {
  import opened Wrappers

  /** `p` is a prefix of `s`. */
  predicate StartsWith(s: string, p: string) {
    |p| <= |s| && s[..|p|] == p
  }

  /** `String#include?`: `sub` occurs in `s` at some position (the empty string occurs everywhere). */
  predicate Contains(s: string, sub: string) {
    exists i :: 0 <= i <= |s| && StartsWith(s[i..], sub)
  }

  /** `i` is where the leftmost occurrence of `p` in `s` starts. */
  predicate FirstAt(s: string, p: string, i: nat) {
    i <= |s| && StartsWith(s[i..], p) && forall j :: 0 <= j < i ==> !StartsWith(s[j..], p)
  }

  /** `t` contains no space character (only ' ', not every whitespace character). */
  predicate NoSpace(t: string) {
    forall k :: 0 <= k < |t| ==> t[k] != ' '
  }

  /** `t` is the longest prefix of `s` without a space: what the greedy `[^ ]*` matches at the start of `s`. */
  predicate MaximalRun(s: string, t: string) {
    StartsWith(s, t) && NoSpace(t) && (|t| == |s| || s[|t|] == ' ')
  }

  /** The position of the leftmost occurrence of `p` in `s`, if there is one. */
  function IndexOf(s: string, p: string): (r: Option<nat>)
    ensures r.Some? <==> Contains(s, p)
    ensures r.Some? ==> FirstAt(s, p, r.value)
    ensures r.None? ==> forall j :: 0 <= j <= |s| ==> !StartsWith(s[j..], p)
    decreases |s|
  {
    if StartsWith(s, p) then
      assert s[0..] == s;
      Some(0)
    else if |s| == 0 then
      assert forall j :: 0 <= j <= |s| ==> s[j..] == s;
      None
    else
      assert forall j :: 1 <= j <= |s| ==> s[j..] == s[1..][j - 1..];
      match IndexOf(s[1..], p)
      case None =>
        None
      case Some(k) =>
        assert StartsWith(s[k + 1..], p);
        Some(k + 1)
  }

  /** Two leftmost occurrences are the same occurrence. */
  lemma FirstAtUnique(s: string, p: string, i: nat, j: nat)
    requires FirstAt(s, p, i) && FirstAt(s, p, j)
    ensures i == j
  {
  }

  /** The greedy run of non-space characters at the start of `s`. */
  function SpanNonSpace(s: string): (t: string)
    ensures MaximalRun(s, t)
    decreases |s|
  {
    if |s| == 0 || s[0] == ' ' then
      ""
    else
      [s[0]] + SpanNonSpace(s[1..])
  }

  /** A maximal run is determined by the string it is taken from. */
  lemma MaximalRunUnique(s: string, t: string)
    requires MaximalRun(s, t)
    ensures t == SpanNonSpace(s)
  {
  }
}
