/**
  Substring search, plain and ASCII case-insensitive. This is what a regular
  expression made of one literal word with the `i` flag decides: for an ASCII
  pattern, a character matches exactly when it equals the pattern letter up to
  ASCII case (characters outside ASCII never fold onto ASCII ones).
 */
module Text {

  function ToLowerAscii(c: char): (r: char)
    ensures 'A' <= c <= 'Z' ==> r as int == c as int + 32
    ensures !('A' <= c <= 'Z') ==> r == c
  {
    if 'A' <= c <= 'Z' then (c as int + 32) as char else c
  }

  function Lower(s: string): (r: string)
    ensures |r| == |s|
    ensures forall i :: 0 <= i < |s| ==> r[i] == ToLowerAscii(s[i])
  {
    if s == [] then [] else [ToLowerAscii(s[0])] + Lower(s[1..])
  }

  predicate OccursAt(text: string, pat: string, i: int) {
    0 <= i && i + |pat| <= |text| && text[i..i + |pat|] == pat
  }

  /** `pat` is a contiguous part of `text`. */
  predicate Contains(text: string, pat: string) {
    exists i | 0 <= i <= |text| - |pat| :: OccursAt(text, pat, i)
  }

  predicate ContainsIgnoreCase(text: string, pat: string) {
    Contains(Lower(text), Lower(pat))
  }

  lemma LowerAppend(a: string, b: string)
    ensures Lower(a + b) == Lower(a) + Lower(b)
  {
    assert forall i :: 0 <= i < |a + b| ==> Lower(a + b)[i] == (Lower(a) + Lower(b))[i];
  }

  /** A word placed anywhere inside a text is found there, whatever its case. */
  lemma {:induction false} ContainsInside(before: string, pat: string, after: string)
    ensures ContainsIgnoreCase(before + pat + after, pat)
  {
    var text := before + pat + after;
    LowerAppend(before + pat, after);
    LowerAppend(before, pat);
    assert Lower(text) == Lower(before) + Lower(pat) + Lower(after);
    assert Lower(text)[|before|..|before| + |Lower(pat)|] == Lower(pat);
    assert OccursAt(Lower(text), Lower(pat), |before|);
  }

  /** The left-to-right scan a regular-expression engine does for a literal pattern. */
  method Search(text: string, pat: string) returns (found: bool, at: int)
    ensures found <==> Contains(text, pat)
    ensures found ==> OccursAt(text, pat, at)
    ensures found ==> forall j :: 0 <= j < at ==> !OccursAt(text, pat, j)
  {
    if |pat| > |text| {
      return false, -1;
    }
    var i := 0;
    while i <= |text| - |pat|
      invariant 0 <= i <= |text| - |pat| + 1
      invariant forall j :: 0 <= j < i ==> !OccursAt(text, pat, j)
    {
      if text[i..i + |pat|] == pat {
        assert OccursAt(text, pat, i);
        return true, i;
      }
      i := i + 1;
    }
    return false, -1;
  }

  /** `RegExp.prototype.test` for a literal pattern with the `i` flag. */
  method TestIgnoreCase(text: string, pat: string) returns (found: bool)
    ensures found <==> ContainsIgnoreCase(text, pat)
  {
    var at;
    found, at := Search(Lower(text), Lower(pat));
  }
}
