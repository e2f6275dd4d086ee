/** `String.prototype.replace` with a string pattern, which replaces only
    the first occurrence of the pattern. Replacement strings are taken
    literally: the `$` patterns JavaScript expands in them are not modelled. */
module Strings {

  /** `pat` occurs in `s` starting at index `j`. */
  predicate OccursAt(s: string, pat: string, j: int) {
    0 <= j && j + |pat| <= |s| && s[j..j + |pat|] == pat
  }

  /** `s.indexOf(pat)`: the first index where `pat` occurs, or -1. */
  function IndexOf(s: string, pat: string): (i: int)
    ensures -1 <= i <= |s|
    ensures i >= 0 ==> OccursAt(s, pat, i)
    ensures i >= 0 ==> forall j :: 0 <= j < i ==> !OccursAt(s, pat, j)
    ensures i < 0 <==> forall j :: 0 <= j <= |s| ==> !OccursAt(s, pat, j)
    decreases |s|
  {
    if |s| < |pat| then -1
    else if s[..|pat|] == pat then assert OccursAt(s, pat, 0); 0
    else
      var k := IndexOf(s[1..], pat);
      assert forall j :: 1 <= j <= |s| ==> (OccursAt(s[1..], pat, j - 1) <==> OccursAt(s, pat, j)) by {
        forall j | 1 <= j <= |s| ensures OccursAt(s[1..], pat, j - 1) <==> OccursAt(s, pat, j) {
          if j + |pat| <= |s| {
            assert s[1..][j - 1..j - 1 + |pat|] == s[j..j + |pat|];
          }
        }
      }
      if k < 0 then -1 else k + 1
  }

  /** `s.replace(pat, rep)` for a replacement `rep` without `$` patterns:
      the first occurrence of `pat` becomes `rep`; without an occurrence the
      string is returned unchanged. */
  function ReplaceFirst(s: string, pat: string, rep: string): (r: string)
    ensures IndexOf(s, pat) < 0 ==> r == s
    ensures IndexOf(s, pat) >= 0 ==>
      var i := IndexOf(s, pat);
      && |r| == |s| - |pat| + |rep|
      && r[..i] == s[..i]
      && r[i..i + |rep|] == rep
      && r[i + |rep|..] == s[i + |pat|..]
  {
    var i := IndexOf(s, pat);
    if i < 0 then s else s[..i] + rep + s[i + |pat|..]
  }
}
