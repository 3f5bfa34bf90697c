/**
  Decimal rendering of integers, as the source obtains it from string
  interpolation (`f"{n}"`): an optional minus sign followed by the digits of
  the magnitude, without leading zeros.  A parser is given as the partner of
  the renderer so that the rendering can be shown to lose no information.
 */
module Decimal {

  predicate IsDigit(ch: char) {
    '0' <= ch <= '9'
  }

  predicate AllDigits(s: string) {
    forall k :: 0 <= k < |s| ==> IsDigit(s[k])
  }

  /** A string of digits without a superfluous leading zero. */
  predicate IsCanonicalNatText(s: string) {
    |s| > 0 && AllDigits(s) && (|s| > 1 ==> s[0] != '0')
  }

  function DigitChar(d: nat): (ch: char)
    requires d < 10
    ensures IsDigit(ch)
    ensures ch as int - '0' as int == d
  {
    ('0' as int + d) as char
  }

  function DigitValue(ch: char): (d: nat)
    requires IsDigit(ch)
    ensures d < 10
    ensures DigitChar(d) == ch
  {
    ch as int - '0' as int
  }

  /** The decimal digits of `n`, most significant first. */
  function NatToString(n: nat): (s: string)
    ensures IsCanonicalNatText(s)
    ensures |s| == 1 <==> n < 10
    decreases n
  {
    if n < 10 then [DigitChar(n)] else NatToString(n / 10) + [DigitChar(n % 10)]
  }

  /** The text of an integer: a minus sign exactly for negative values. */
  function IntToString(i: int): (s: string)
    ensures |s| > 0
    ensures s[0] == '-' <==> i < 0
  {
    if i < 0 then "-" + NatToString(-i) else NatToString(i)
  }

  /** The text of an integer consists of digits and at most a leading minus sign. */
  lemma IntToStringChars(i: int)
    ensures forall k :: 0 <= k < |IntToString(i)| ==> IntToString(i)[k] == '-' || IsDigit(IntToString(i)[k])
    ensures forall k :: 0 < k < |IntToString(i)| ==> IsDigit(IntToString(i)[k])
  {
  }

  /** The value of a string of digits (the partner of NatToString). */
  function ParseNat(s: string): nat
    requires |s| > 0 && AllDigits(s)
    decreases |s|
  {
    if |s| == 1 then DigitValue(s[0])
    else 10 * ParseNat(s[..|s| - 1]) + DigitValue(s[|s| - 1])
  }

  /** Reading back the rendering of a natural number gives that number. */
  lemma {:induction false} ParseNatOfNatToString(n: nat)
    ensures ParseNat(NatToString(n)) == n
    decreases n
  {
    if n >= 10 {
      var s := NatToString(n);
      assert s[..|s| - 1] == NatToString(n / 10);
      ParseNatOfNatToString(n / 10);
    }
  }

  /** A canonical digit string has a value of at least 10 exactly when it has more than one digit. */
  lemma {:induction false} ParseNatMagnitude(s: string)
    requires IsCanonicalNatText(s)
    ensures |s| > 1 <==> ParseNat(s) >= 10
    decreases |s|
  {
    if |s| > 2 {
      var p := s[..|s| - 1];
      assert p[0] == s[0];
      ParseNatMagnitude(p);
    } else if |s| == 2 {
      assert s[..1] == [s[0]];
    }
  }

  /** Rendering the value of a canonical digit string gives that string back. */
  lemma {:induction false} NatToStringOfParseNat(s: string)
    requires IsCanonicalNatText(s)
    ensures NatToString(ParseNat(s)) == s
    decreases |s|
  {
    if |s| > 1 {
      var p := s[..|s| - 1];
      assert p[0] == s[0];
      NatToStringOfParseNat(p);
      ParseNatMagnitude(p);
      ParseNatMagnitude(s);
      var n := ParseNat(s);
      assert n / 10 == ParseNat(p) && n % 10 == DigitValue(s[|s| - 1]);
      assert s == p + [s[|s| - 1]];
    }
  }

  /** Distinct numbers are rendered as distinct texts. */
  lemma IntToStringInjective(i: int, j: int)
    requires IntToString(i) == IntToString(j)
    ensures i == j
  {
    if i < 0 && j < 0 {
      assert NatToString(-i) == IntToString(i)[1..] == NatToString(-j);
      ParseNatOfNatToString(-i);
      ParseNatOfNatToString(-j);
    } else if i >= 0 && j >= 0 {
      ParseNatOfNatToString(i);
      ParseNatOfNatToString(j);
    }
  }
}
