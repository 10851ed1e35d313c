/**
 * String helpers: case mapping of ASCII letters and substring search, the
 * two operations the weather classifier performs on its input.
 */
module Text {

  function LowerChar(c: char): char {
    if 'A' <= c <= 'Z' then (c as int + ('a' as int - 'A' as int)) as char else c
  }

  function UpperChar(c: char): char {
    if 'a' <= c <= 'z' then (c as int - ('a' as int - 'A' as int)) as char else c
  }

  /** `str.lower()`, restricted to ASCII letters. */
  function Lower(s: string): (r: string)
    ensures |r| == |s|
    ensures forall i :: 0 <= i < |s| ==> r[i] == LowerChar(s[i])
    ensures forall i :: 0 <= i < |r| ==> !('A' <= r[i] <= 'Z')
  {
    if s == [] then [] else [LowerChar(s[0])] + Lower(s[1..])
  }

  /** `str.upper()`, restricted to ASCII letters. */
  function Upper(s: string): (r: string)
    ensures |r| == |s|
    ensures forall i :: 0 <= i < |s| ==> r[i] == UpperChar(s[i])
    ensures forall i :: 0 <= i < |r| ==> !('a' <= r[i] <= 'z')
  {
    if s == [] then [] else [UpperChar(s[0])] + Upper(s[1..])
  }

  /** Lower-casing a lower-cased string changes nothing. */
  lemma LowerIdempotent(s: string)
    ensures Lower(Lower(s)) == Lower(s)
  {
    var l := Lower(s);
    assert forall i :: 0 <= i < |l| ==> Lower(l)[i] == l[i];
  }

  /** Upper-casing first loses nothing that lower-casing keeps. */
  lemma LowerOfUpper(s: string)
    ensures Lower(Upper(s)) == Lower(s)
  {
    var u := Upper(s);
    var a, b := Lower(u), Lower(s);
    forall i | 0 <= i < |s| ensures a[i] == b[i] {
      var c := s[i];
      assert u[i] == UpperChar(c);
      if 'a' <= c <= 'z' {
        assert a[i] == LowerChar(UpperChar(c)) == c;
      }
    }
  }

  /** `word` occurs in `text` starting at index `i`. */
  predicate OccursAt(text: string, word: string, i: nat) {
    i + |word| <= |text| && text[i..i + |word|] == word
  }

  /** Python's `word in text` on strings. */
  predicate Contains(text: string, word: string) {
    exists i: nat | i <= |text| :: OccursAt(text, word, i)
  }
}
