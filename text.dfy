/** Strings as the extractor compares them: ordinal, optionally ignoring case. */
module Text {

  /** ASCII upper-case folding used by `StringComparison.OrdinalIgnoreCase`. */
  function Fold(c: char): (r: char)
    ensures 'a' <= c <= 'z' ==> r as int == c as int - 32
    ensures !('a' <= c <= 'z') ==> r == c
  {
    if 'a' <= c <= 'z' then (c as int - 32) as char else c
  }

  /** The case-folded form of a string; two strings are equal ignoring case when their folds are equal. */
  function FoldAll(s: string): (r: string)
    ensures |r| == |s|
    ensures forall i :: 0 <= i < |s| ==> r[i] == Fold(s[i])
  {
    if s == [] then [] else [Fold(s[0])] + FoldAll(s[1..])
  }

  /** `string.Equals(a, b, StringComparison.OrdinalIgnoreCase)`. */
  predicate EqualsIgnoreCase(a: string, b: string)
  {
    FoldAll(a) == FoldAll(b)
  }

  lemma EqualsIgnoreCaseIsEquivalence(a: string, b: string, c: string)
    ensures EqualsIgnoreCase(a, a)
    ensures EqualsIgnoreCase(a, b) == EqualsIgnoreCase(b, a)
    ensures EqualsIgnoreCase(a, b) && EqualsIgnoreCase(b, c) ==> EqualsIgnoreCase(a, c)
  {
  }

  /** Two strings that differ only in the case of their letters are equal ignoring case. */
  lemma {:induction false} CaseOnlyDifference(a: string, b: string)
    requires |a| == |b|
    requires forall i :: 0 <= i < |a| ==> a[i] == b[i] || Fold(a[i]) == Fold(b[i])
    ensures EqualsIgnoreCase(a, b)
  {
    assert FoldAll(a) == FoldAll(b) by {
      forall i | 0 <= i < |a| ensures FoldAll(a)[i] == FoldAll(b)[i] {
      }
    }
  }

  /** `text.Count(c => c == x)`. */
  function Count(s: string, x: char): (n: nat)
    ensures n <= |s|
    ensures n == |s| ==> forall i :: 0 <= i < |s| ==> s[i] == x
  {
    if s == [] then 0 else (if s[0] == x then 1 else 0) + Count(s[1..], x)
  }

  /** `Environment.NewLine` on the platforms the model assumes (Unix). */
  const NewLine: string := "\n"
}
