/**
  The two trimming functions of Go's `strings` package that maint-http uses
  to sanitize its settings at start-up, on strings of characters.
 */
module GoStrings {

  /** `s` begins with `pre` (`strings.HasPrefix`). */
  predicate HasPrefix(s: string, pre: string) {
    |pre| <= |s| && s[..|pre|] == pre
  }

  /** `s` ends with `suf` (`strings.HasSuffix`). */
  predicate HasSuffix(s: string, suf: string) {
    |suf| <= |s| && s[|s| - |suf|..] == suf
  }

  /** `strings.TrimPrefix`: `s` without one leading `pre`, or `s` itself
      when it does not begin with `pre`. */
  function TrimPrefix(s: string, pre: string): (r: string)
    ensures HasPrefix(s, pre) ==> pre + r == s
    ensures !HasPrefix(s, pre) ==> r == s
  {
    if HasPrefix(s, pre) then s[|pre|..] else s
  }

  /** `strings.TrimSuffix`: `s` without one trailing `suf`, or `s` itself
      when it does not end with `suf`. */
  function TrimSuffix(s: string, suf: string): (r: string)
    ensures HasSuffix(s, suf) ==> r + suf == s
    ensures !HasSuffix(s, suf) ==> r == s
  {
    if HasSuffix(s, suf) then s[..|s| - |suf|] else s
  }
}
