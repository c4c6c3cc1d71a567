/**
 * Decimal numerals and the few string operations the request handler
 * relies on: template-literal rendering of integers (`${n}`),
 * `String.prototype.startsWith` and the search for a separator character.
 */
module Text {
  import opened Wrappers

  predicate IsDigit(c: char) {
    '0' <= c <= '9'
  }

  predicate AllDigits(s: string) {
    forall i :: 0 <= i < |s| ==> IsDigit(s[i])
  }

  function DigitChar(d: nat): (c: char)
    requires d < 10
    ensures IsDigit(c)
  {
    ('0' as int + d) as char
  }

  function DigitValue(c: char): (d: nat)
    requires IsDigit(c)
    ensures d < 10
  {
    c as int - '0' as int
  }

  /** The decimal numeral JavaScript writes for a non-negative integer: no sign, no leading zero. */
  function NatText(n: nat): (s: string)
    ensures |s| >= 1 && AllDigits(s)
    ensures s[0] == '0' ==> n == 0 && |s| == 1
    decreases n
  {
    if n < 10 then [DigitChar(n)] else NatText(n / 10) + [DigitChar(n % 10)]
  }

  /**
   * The decimal numeral JavaScript writes for an integer below 1e21 in
   * magnitude (every safe integer and every clock difference), with a
   * leading '-' when negative.
   */
  function IntText(i: int): (s: string)
    ensures |s| >= 1
    ensures i < 0 <==> s[0] == '-'
  {
    if i < 0 then "-" + NatText(-i) else NatText(i)
  }

  /** Value of a string of decimal digits, read most significant digit first. */
  function DigitsValue(s: string): nat
    requires AllDigits(s)
    decreases |s|
  {
    if s == [] then 0 else DigitsValue(s[..|s| - 1]) * 10 + DigitValue(s[|s| - 1])
  }

  /** Reads a non-empty string of decimal digits; anything else is refused. */
  function ParseNat(s: string): (r: Option<nat>)
    ensures r.Some? <==> s != [] && AllDigits(s)
  {
    if s != [] && AllDigits(s) then Some(DigitsValue(s)) else None
  }

  /** Reads what IntText writes: an optional '-' followed by decimal digits. */
  function ParseInt(s: string): (r: Option<int>)
  {
    if s != [] && s[0] == '-' then
      match ParseNat(s[1..])
      case Some(n) => Some(-(n as int))
      case None => None
    else
      match ParseNat(s)
      case Some(n) => Some(n)
      case None => None
  }

  /** Reading back the numeral of n gives n. */
  lemma {:induction false} NatTextRoundTrip(n: nat)
    ensures ParseNat(NatText(n)) == Some(n)
  {
    var s := NatText(n);
    if n < 10 {
      assert s[..|s| - 1] == [];
      assert DigitsValue(s) == DigitValue(s[0]) == n;
    } else {
      NatTextRoundTrip(n / 10);
      assert s[..|s| - 1] == NatText(n / 10);
      assert DigitValue(s[|s| - 1]) == n % 10;
    }
  }

  /** Reading back the numeral of i gives i, for negative i as well. */
  lemma IntTextRoundTrip(i: int)
    ensures ParseInt(IntText(i)) == Some(i)
  {
    if i < 0 {
      NatTextRoundTrip(-i);
      assert IntText(i)[1..] == NatText(-i);
    } else {
      NatTextRoundTrip(i);
    }
  }

  /** Two naturals have the same numeral only when they are equal. */
  lemma NatTextInjective(m: nat, n: nat)
    ensures NatText(m) == NatText(n) <==> m == n
  {
    NatTextRoundTrip(m);
    NatTextRoundTrip(n);
  }

  /** `s.startsWith(prefix)`. */
  predicate StartsWith(s: string, prefix: string) {
    |prefix| <= |s| && s[..|prefix|] == prefix
  }

  /** Two prefixes of the same string: the shorter is a prefix of the longer. */
  lemma CommonPrefix(s: string, p: string, q: string)
    requires StartsWith(s, p) && StartsWith(s, q) && |p| <= |q|
    ensures StartsWith(q, p)
  {
    assert q[..|p|] == s[..|q|][..|p|] == s[..|p|];
  }

  /** Position of the first occurrence of c in s, or |s| when c does not occur. */
  function IndexOf(s: string, c: char): (i: nat)
    ensures i <= |s|
    ensures i < |s| ==> s[i] == c
    ensures forall j :: 0 <= j < i ==> s[j] != c
    decreases |s|
  {
    if s == [] then 0 else if s[0] == c then 0 else 1 + IndexOf(s[1..], c)
  }

  /** The first c in a + [c] + b is the one after a, when a holds none. */
  lemma IndexOfAfter(a: string, c: char, b: string)
    requires c !in a
    ensures IndexOf(a + [c] + b, c) == |a|
  {
    var s := a + [c] + b;
    assert s[|a|] == c;
    assert forall j :: 0 <= j < |a| ==> s[j] == a[j];
  }
}
