/**
 Character-sequence helpers that the models share: JavaScript's
 `String.prototype.startsWith` and the first piece of `String.prototype.split`
 with a one-character separator.
 */
module Strings {

  /** `s.startsWith(prefix)`, compared character by character. */
  function StartsWith(s: string, prefix: string): (r: bool)
    ensures r <==> prefix <= s
  {
    if |prefix| == 0 then true
    else if |s| == 0 then false
    else s[0] == prefix[0] && StartsWith(s[1..], prefix[1..])
  }

  /** `s.split(sep)[0]`: the text before the first `sep`, or all of `s` when
      `sep` does not occur. */
  function BeforeFirst(s: string, sep: char): (r: string)
    ensures r <= s
    ensures sep !in r
    ensures |r| < |s| ==> s[|r|] == sep
  {
    if |s| == 0 then ""
    else if s[0] == sep then ""
    else [s[0]] + BeforeFirst(s[1..], sep)
  }

  /** The three properties of `BeforeFirst` pin its result down: any prefix
      of `s` that avoids `sep` and stops at `sep` or at the end is it. */
  lemma BeforeFirstUnique(s: string, sep: char, r: string)
    requires r <= s
    requires sep !in r
    requires |r| < |s| ==> s[|r|] == sep
    ensures r == BeforeFirst(s, sep)
  {
  }
}
