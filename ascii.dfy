/** `str.upper()`, restricted to ASCII letters. */
module Ascii {

  function UpperChar(c: char): char {
    if 'a' <= c <= 'z' then (c as int - 32) as char else c
  }

  predicate IsUpperCased(s: string) {
    forall i :: 0 <= i < |s| ==> UpperChar(s[i]) == s[i]
  }

  /** Upper-cases every ASCII letter and leaves every other character alone. */
  function Upper(s: string): (r: string)
    ensures |r| == |s|
    ensures forall i :: 0 <= i < |s| ==> r[i] == UpperChar(s[i])
    ensures IsUpperCased(r)
  {
    seq(|s|, i requires 0 <= i < |s| => UpperChar(s[i]))
  }

  /** Upper-casing twice is upper-casing once. */
  lemma UpperIdempotent(s: string)
    ensures Upper(Upper(s)) == Upper(s)
  {
    assert forall i :: 0 <= i < |s| ==> Upper(Upper(s))[i] == Upper(s)[i];
  }

  /** Upper-casing a non-empty string gives a non-empty string, so truthiness is kept. */
  lemma UpperKeepsTruthiness(s: string)
    ensures Upper(s) == [] <==> s == []
  {
  }

  /** The sample webhook event of the documentation, upper-cased. */
  lemma UpperSample()
    ensures Upper("post_published") == "POST_PUBLISHED"
  {
    var u := Upper("post_published");
    forall i | 0 <= i < 14
      ensures u[i] == "POST_PUBLISHED"[i]
    {
    }
  }
}
