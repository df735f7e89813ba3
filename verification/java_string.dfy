/** The meaning of `java.lang.String.equals(Object)` when its argument is a
    string: two strings are equal exactly when they have the same length and
    the same character at every position. There is no trimming, no case
    folding and no prefix match. */
module JavaString {

  /** `a.equals(b)`: compare the lengths first, then every character.
      Strings of different lengths are never equal. */
  function StringEquals(a: string, b: string): (eq: bool)
    ensures eq ==> |a| == |b|
  {
    |a| == |b| && CharsEqualFrom(a, b, 0)
  }

  /** The character-by-character comparison of `a[i..]` and `b[i..]`,
      front to back, stopping at the first position that differs. When it
      succeeds, every character it passed over matched. */
  function CharsEqualFrom(a: string, b: string, i: nat): (r: bool)
    requires |a| == |b| && i <= |a|
    ensures r ==> forall k :: i <= k < |a| ==> a[k] == b[k]
    decreases |a| - i
  {
    i == |a| || (a[i] == b[i] && CharsEqualFrom(a, b, i + 1))
  }

  /** The comparison from position `i` on succeeds exactly when the two
      suffixes are the same sequence. */
  lemma {:induction false} CharsEqualFromIsSuffixEquality(a: string, b: string, i: nat)
    requires |a| == |b| && i <= |a|
    ensures CharsEqualFrom(a, b, i) <==> a[i..] == b[i..]
    decreases |a| - i
  {
    if i < |a| {
      CharsEqualFromIsSuffixEquality(a, b, i + 1);
      assert a[i..] == [a[i]] + a[i + 1..];
      assert b[i..] == [b[i]] + b[i + 1..];
      if a[i..] == b[i..] {
        assert a[i] == a[i..][0] == b[i..][0] == b[i];
        assert a[i + 1..] == a[i..][1..] == b[i..][1..] == b[i + 1..];
      }
    }
  }

  /** Java string equality is exactly sequence equality, in both directions:
      equal strings are always recognised, and any difference at all (in
      length or in one character, including letter case) makes them unequal. */
  lemma StringEqualsIsEquality(a: string, b: string)
    ensures StringEquals(a, b) <==> a == b
  {
    if |a| == |b| {
      CharsEqualFromIsSuffixEquality(a, b, 0);
      assert a[0..] == a && b[0..] == b;
    }
  }

  /** `equals` is symmetric, so `type.equals("cheese")` and
      `"cheese".equals(type)` always agree. */
  lemma StringEqualsSymmetric(a: string, b: string)
    ensures StringEquals(a, b) <==> StringEquals(b, a)
  {
    StringEqualsIsEquality(a, b);
    StringEqualsIsEquality(b, a);
  }

  /** ASCII upper case letters mapped to lower case; everything else kept. */
  function LowerAscii(c: char): char
  {
    if 'A' <= c <= 'Z' then (c as int - 'A' as int + 'a' as int) as char else c
  }

  /** `a` and `b` spell the same word once ASCII letter case is ignored. */
  predicate SameIgnoringAsciiCase(a: string, b: string)
  {
    |a| == |b| && forall i :: 0 <= i < |a| ==> LowerAscii(a[i]) == LowerAscii(b[i])
  }

  /** `equals` is case-sensitive: a string that spells the same word in a
      different letter case is not equal. */
  lemma StringEqualsIsCaseSensitive(a: string, b: string)
    requires SameIgnoringAsciiCase(a, b) && a != b
    ensures !StringEquals(a, b)
  {
    StringEqualsIsEquality(a, b);
  }
}
