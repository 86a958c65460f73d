/** The part of java.lang.String that the field descriptor relies on: comparison ignoring case. */
module Text {

  /**
   * The case-folding key of one character under String.equalsIgnoreCase, for the
   * characters that fold onto an ASCII letter. Java takes two characters as equal
   * ignoring case when they are equal, when their upper cases are equal, or when
   * the lower cases of their upper cases are equal. Besides A-Z, that puts the
   * dotless i (U+0131, upper case I) and the capital I with dot (U+0130, lower case
   * i) with i, the long s (U+017F, upper case S) with s, and the Kelvin sign
   * (U+212A, lower case k) with k. Every other character is its own key.
   */
  function FoldCase(c: char): (d: char)
    ensures 'A' <= c <= 'Z' ==> 'a' <= d <= 'z' && d as int - c as int == 32
    ensures c == '\U{0131}' || c == '\U{0130}' ==> d == 'i'
    ensures c == '\U{017F}' ==> d == 's'
    ensures c == '\U{212A}' ==> d == 'k'
    ensures !('A' <= c <= 'Z') && c !in {'\U{0131}', '\U{0130}', '\U{017F}', '\U{212A}'} ==> d == c
  {
    if 'A' <= c <= 'Z' then (c as int + 32) as char
    else if c == '\U{0131}' || c == '\U{0130}' then 'i'
    else if c == '\U{017F}' then 's'
    else if c == '\U{212A}' then 'k'
    else c
  }

  /**
   * String.equalsIgnoreCase: both strings have the same length and agree position
   * by position once folded.
   */
  predicate EqualsIgnoreCase(a: string, b: string) {
    |a| == |b| && forall i :: 0 <= i < |a| ==> FoldCase(a[i]) == FoldCase(b[i])
  }

  /** Every character of `s` is its own folding key (true of lower-case ASCII text). */
  predicate IsFolded(s: string) {
    forall i :: 0 <= i < |s| ==> FoldCase(s[i]) == s[i]
  }

  lemma EqualsIgnoreCaseReflexive(a: string)
    ensures EqualsIgnoreCase(a, a)
  {
  }

  lemma EqualsIgnoreCaseSymmetric(a: string, b: string)
    requires EqualsIgnoreCase(a, b)
    ensures EqualsIgnoreCase(b, a)
  {
  }

  lemma EqualsIgnoreCaseTransitive(a: string, b: string, c: string)
    requires EqualsIgnoreCase(a, b) && EqualsIgnoreCase(b, c)
    ensures EqualsIgnoreCase(a, c)
  {
  }

  /** Two folded strings are equal ignoring case exactly when they are equal. */
  lemma {:induction false} FoldedEqualsIgnoreCase(a: string, b: string)
    requires IsFolded(a) && IsFolded(b)
    ensures EqualsIgnoreCase(a, b) <==> a == b
  {
    if EqualsIgnoreCase(a, b) {
      forall i | 0 <= i < |a| ensures a[i] == b[i] {
        assert FoldCase(a[i]) == FoldCase(b[i]);
      }
    }
  }
}
