/**
  The two uses of Go's `regexp` package in maint-http's request handler,
  for a pattern that is a literal string: `regexp.MustCompile(pat).MatchString(s)`
  and `regexp.MustCompile(pat + ".*").FindString(s)`.

  A pattern without metacharacters compiles without panicking and matches
  exactly its own text, so matching is substring search. Go's `.` matches
  every character except a newline, so the trailing `.*` of the capture
  runs from the end of the match to the first `'\n'` or the end of `s`.
 */
module LiteralRegexp {

  datatype Option<T> = None | Some(value: T)

  /** The characters Go's regexp syntax treats specially (those `regexp.QuoteMeta` escapes). */
  const MetaChars: set<char> := {'\\', '.', '+', '*', '?', '(', ')', '|', '[', ']', '{', '}', '^', '$'}

  /** `pat` contains no metacharacter, so as a Go regexp it stands for its own text. */
  predicate IsLiteral(pat: string) {
    forall k :: 0 <= k < |pat| ==> pat[k] !in MetaChars
  }

  /** `pat` occurs in `s` starting at index `i`. */
  predicate OccursAt(s: string, pat: string, i: int) {
    0 <= i && i + |pat| <= |s| && s[i..i + |pat|] == pat
  }

  /** `pat` occurs somewhere in `s`. */
  predicate Contains(s: string, pat: string) {
    exists i :: 0 <= i <= |s| && OccursAt(s, pat, i)
  }

  /** `i` is where the leftmost occurrence of `pat` in `s` starts. */
  predicate IsLeftmost(s: string, pat: string, i: int) {
    OccursAt(s, pat, i) && forall j :: 0 <= j < i ==> !OccursAt(s, pat, j)
  }

  /** The first index at or after `k` where `pat` occurs in `s`, if any. */
  function FindFrom(s: string, pat: string, k: nat): (r: Option<nat>)
    requires k <= |s|
    ensures r.Some? ==> k <= r.value && OccursAt(s, pat, r.value)
    ensures r.Some? ==> forall j :: k <= j < r.value ==> !OccursAt(s, pat, j)
    ensures r.None? ==> forall j :: k <= j ==> !OccursAt(s, pat, j)
    decreases |s| - k
  {
    if OccursAt(s, pat, k) then Some(k)
    else if k == |s| then None
    else FindFrom(s, pat, k + 1)
  }

  /** The first index at or after `k` that holds a newline, or `|s|` if
      there is none: where a `.*` that starts at `k` stops. */
  function LineEnd(s: string, k: nat): (e: nat)
    requires k <= |s|
    ensures k <= e <= |s|
    ensures forall j :: k <= j < e ==> s[j] != '\n'
    ensures e < |s| ==> s[e] == '\n'
    decreases |s| - k
  {
    if k == |s| || s[k] == '\n' then k else LineEnd(s, k + 1)
  }

  /** Every string that contains `pat` has a leftmost occurrence of it. */
  lemma LeftmostExists(s: string, pat: string)
    requires Contains(s, pat)
    ensures exists i :: IsLeftmost(s, pat, i)
  {
    var i :| OccursAt(s, pat, i);
    var r := FindFrom(s, pat, 0);
    assert r.Some?;
    assert IsLeftmost(s, pat, r.value);
  }

  /** A pattern with a character that `s` lacks does not occur in `s`. */
  lemma AbsentCharNotContained(s: string, pat: string, k: int)
    requires 0 <= k < |pat| && pat[k] !in s
    ensures !Contains(s, pat)
  {
    forall i | 0 <= i <= |s| ensures !OccursAt(s, pat, i) {
      if i + |pat| <= |s| {
        assert s[i..i + |pat|][k] == s[i + k];
        assert s[i + k] in s;
      }
    }
  }

  /** `regexp.MustCompile(pat).MatchString(s)` for a literal `pat`. */
  function MatchString(s: string, pat: string): (b: bool)
    requires IsLiteral(pat)
    ensures b <==> Contains(s, pat)
  {
    FindFrom(s, pat, 0).Some?
  }

  /** `regexp.MustCompile(pat + ".*").FindString(s)` for a literal `pat`: the
      leftmost match of `pat` extended to the end of its line, or `""` when
      `pat` does not occur. */
  function FindStringDotStar(s: string, pat: string): (r: string)
    requires IsLiteral(pat)
    ensures !Contains(s, pat) ==> r == ""
    ensures forall i :: IsLeftmost(s, pat, i) ==> r == s[i..LineEnd(s, i + |pat|)]
  {
    match FindFrom(s, pat, 0)
    case None => ""
    case Some(i) => s[i..LineEnd(s, i + |pat|)]
  }
}
