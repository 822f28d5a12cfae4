/** The two pieces of JavaScript's string library the resolvers rely on:
    `String.prototype.indexOf` and `String.prototype.replace` called with a
    string (not a regular expression) as its pattern, which replaces only the
    first occurrence. The replacement is inserted literally: the `$` patterns
    JavaScript expands in a replacement string are not interpreted (the only
    replacement used is the empty string, which has none). */
module Strings {
  import opened Wrappers

  /** `pat` occurs in `s` starting at index `i`. */
  predicate OccursAt(s: string, pat: string, i: int) {
    0 <= i && i + |pat| <= |s| && s[i..i + |pat|] == pat
  }

  /** `pat` occurs somewhere in `s`. */
  ghost predicate Contains(s: string, pat: string) {
    exists i :: OccursAt(s, pat, i)
  }

  /** The index of the first occurrence of `pat` in `s`, or None (JavaScript's
      -1) when there is none. An empty pattern is found at index 0. */
  function IndexOf(s: string, pat: string): (r: Option<nat>)
    ensures r.Some? ==> OccursAt(s, pat, r.value)
    ensures r.Some? ==> forall j :: 0 <= j < r.value ==> !OccursAt(s, pat, j)
    ensures r.None? <==> !Contains(s, pat)
    decreases |s|
  {
    if |s| < |pat| then
      None
    else if s[..|pat|] == pat then
      Some(0)
    else
      match IndexOf(s[1..], pat)
      case None =>
        NoOccurrenceAfterHead(s, pat);
        None
      case Some(k) =>
        ShiftOccurrence(s, pat, k);
        forall j | 0 <= j < k + 1
          ensures !OccursAt(s, pat, j)
        {
          if j > 0 { ShiftOccurrence(s, pat, j - 1); }
        }
        Some(k + 1)
  }

  /** An occurrence in the tail `s[1..]` at `k` is an occurrence in `s` at `k + 1`. */
  lemma ShiftOccurrence(s: string, pat: string, k: nat)
    requires |s| > 0
    ensures OccursAt(s[1..], pat, k) <==> OccursAt(s, pat, k + 1)
  {
    if k + 1 + |pat| <= |s| {
      assert s[1..][k..k + |pat|] == s[k + 1..k + 1 + |pat|];
    }
  }

  /** No occurrence at the head and none in the tail means none at all. */
  lemma NoOccurrenceAfterHead(s: string, pat: string)
    requires |s| >= |pat| && s[..|pat|] != pat
    requires !Contains(s[1..], pat)
    ensures !Contains(s, pat)
  {
    forall i | OccursAt(s, pat, i)
      ensures false
    {
      if i > 0 {
        ShiftOccurrence(s, pat, i - 1);
      }
    }
  }

  /** `s.replace(pat, rep)` with a string pattern: the first occurrence of
      `pat` is replaced by `rep`, taken literally; when there is none, `s` is
      returned as it is. */
  function ReplaceFirst(s: string, pat: string, rep: string): (r: string)
    ensures !Contains(s, pat) ==> r == s
    ensures Contains(s, pat) ==> |r| == |s| - |pat| + |rep|
  {
    match IndexOf(s, pat)
    case None => s
    case Some(i) => s[..i] + rep + s[i + |pat|..]
  }

  /** The replacement stands where the first occurrence stood, and putting
      the pattern back in its place gives the original string: nothing but
      that one occurrence is touched. */
  lemma {:induction false} ReplaceFirstRestores(s: string, pat: string, rep: string)
    requires IndexOf(s, pat).Some?
    ensures var i := IndexOf(s, pat).value;
            var r := ReplaceFirst(s, pat, rep);
            i + |rep| <= |r| && r[i..i + |rep|] == rep &&
            r[..i] + pat + r[i + |rep|..] == s
  {
    var i := IndexOf(s, pat).value;
    var r := ReplaceFirst(s, pat, rep);
    assert r[..i] == s[..i];
    assert r[i + |rep|..] == s[i + |pat|..];
    assert s == s[..i] + s[i..i + |pat|] + s[i + |pat|..];
  }

  /** A string that begins with `pat` has its first occurrence at index 0, so
      replacing it with nothing strips exactly that prefix. */
  lemma {:induction false} ReplaceFirstLeading(pat: string, rest: string)
    ensures ReplaceFirst(pat + rest, pat, "") == rest
  {
    var s := pat + rest;
    assert OccursAt(s, pat, 0) by { assert s[0..|pat|] == pat; }
    var i := IndexOf(s, pat).value;
    assert i == 0;
    assert s[|pat|..] == rest;
  }
}
