/**
 * The java.lang.String operations the core relies on: case mapping,
 * String.contains and String.compareTo. Case mapping is modelled on ASCII
 * letters only; other characters map to themselves.
 */
module JavaText {

  function UpperChar(c: char): char {
    if 'a' <= c <= 'z' then (c as int - 32) as char else c
  }

  function LowerChar(c: char): char {
    if 'A' <= c <= 'Z' then (c as int + 32) as char else c
  }

  /** String.toUpperCase, one character at a time. */
  function Upper(s: string): string {
    seq(|s|, i requires 0 <= i < |s| => UpperChar(s[i]))
  }

  /** String.toLowerCase, one character at a time. */
  function Lower(s: string): string {
    seq(|s|, i requires 0 <= i < |s| => LowerChar(s[i]))
  }

  /** `k` occurs in `s` starting at index `i`. */
  predicate OccursAt(s: string, k: string, i: int) {
    0 <= i <= |s| - |k| && s[i..i + |k|] == k
  }

  /** String.contains: `k` occurs as a contiguous piece of `s`. */
  predicate Contains(s: string, k: string) {
    exists i | 0 <= i <= |s| - |k| :: OccursAt(s, k, i)
  }

  /**
   * String.compareTo: the difference of the first pair of characters that
   * differ, or else the difference of the lengths.
   */
  function CompareStrings(a: string, b: string): int
    decreases |a|
  {
    if |a| == 0 || |b| == 0 then |a| - |b|
    else if a[0] != b[0] then a[0] as int - b[0] as int
    else CompareStrings(a[1..], b[1..])
  }

  /** Lexicographic order on strings, as the sign of compareTo gives it. */
  predicate LexLessEq(a: string, b: string) {
    CompareStrings(a, b) <= 0
  }

  lemma UpperAppend(a: string, b: string)
    ensures Upper(a + b) == Upper(a) + Upper(b)
  {
  }

  lemma UpperOfLower(s: string)
    ensures Upper(Lower(s)) == Upper(s)
  {
  }

  lemma UpperIdempotent(s: string)
    ensures Upper(Upper(s)) == Upper(s)
  {
  }

  /** A string contains only strings no longer than itself. */
  lemma ContainsNoLonger(s: string, k: string)
    requires Contains(s, k)
    ensures |k| <= |s|
  {
  }

  lemma LowerOfUpper(s: string)
    ensures Lower(Upper(s)) == Lower(s)
  {
  }

  /** A piece of `s` is still a piece of any string that extends `s` on either side. */
  lemma ContainsExtended(p: string, s: string, q: string, k: string)
    requires Contains(s, k)
    ensures Contains(p + s + q, k)
  {
    var i :| 0 <= i <= |s| - |k| && OccursAt(s, k, i);
    assert s[i..i + |k|] == k;
    assert (p + s + q)[|p| + i..|p| + i + |k|] == s[i..i + |k|];
    assert OccursAt(p + s + q, k, |p| + i);
  }

  /** compareTo is exactly antisymmetric: swapping the arguments negates the result. */
  lemma {:induction false} CompareAntisymmetric(a: string, b: string)
    ensures CompareStrings(a, b) == -CompareStrings(b, a)
    decreases |a|
  {
    if |a| != 0 && |b| != 0 && a[0] == b[0] {
      CompareAntisymmetric(a[1..], b[1..]);
    }
  }

  /** compareTo is zero exactly on equal strings. */
  lemma {:induction false} CompareZeroIff(a: string, b: string)
    ensures CompareStrings(a, b) == 0 <==> a == b
    decreases |a|
  {
    if |a| != 0 && |b| != 0 && a[0] == b[0] {
      CompareZeroIff(a[1..], b[1..]);
      assert a == [a[0]] + a[1..] && b == [b[0]] + b[1..];
    }
  }

  /** The order compareTo induces is transitive. */
  lemma {:induction false} CompareTransitive(a: string, b: string, c: string)
    requires LexLessEq(a, b) && LexLessEq(b, c)
    ensures LexLessEq(a, c)
    decreases |a|
  {
    if |a| != 0 && |b| != 0 && |c| != 0 && a[0] == b[0] && b[0] == c[0] {
      CompareTransitive(a[1..], b[1..], c[1..]);
    }
  }

  /** The order compareTo induces is total. */
  lemma CompareTotal(a: string, b: string)
    ensures LexLessEq(a, b) || LexLessEq(b, a)
  {
    CompareAntisymmetric(a, b);
  }
}
