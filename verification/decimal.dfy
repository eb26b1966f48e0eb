/** Decimal rendering of integers, as a template literal `${n}` renders an
    integral JavaScript number of magnitude at most 2^53, and the parser
    that reads it back. */
module Decimal {
  import opened JsValues

  predicate IsDigit(c: char)
  {
    '0' <= c <= '9'
  }

  function DigitChar(d: nat): (c: char)
    requires d < 10
    ensures IsDigit(c)
    ensures DigitValue(c) == d
  {
    ('0' as int + d) as char
  }

  function DigitValue(c: char): nat
    requires IsDigit(c)
  {
    (c as int - '0' as int) as nat
  }

  predicate AllDigits(s: string)
  {
    forall i :: 0 <= i < |s| ==> IsDigit(s[i])
  }

  /** At least one digit, and no leading zero unless the number is 0. */
  predicate CanonicalDigits(s: string)
  {
    |s| > 0 && AllDigits(s) && (s[0] == '0' ==> |s| == 1)
  }

  /** The digits of `n`, most significant first, without leading zeros. */
  function NatToDigits(n: nat): (s: string)
    ensures CanonicalDigits(s)
    ensures s[0] == '0' ==> n == 0
  {
    if n < 10 then [DigitChar(n)]
    else NatToDigits(n / 10) + [DigitChar(n % 10)]
  }

  /** The value of a string of digits; the empty string has value 0. */
  function DigitsValue(s: string): nat
    requires AllDigits(s)
  {
    if |s| == 0 then 0
    else DigitsValue(s[..|s| - 1]) * 10 + DigitValue(s[|s| - 1])
  }

  /** `${n}` for an integer `n`: a minus sign for negatives, then the
      digits of the magnitude without leading zeros. */
  function IntToDecimal(n: int): (s: string)
    ensures |s| > 0
    ensures s[0] == '-' <==> n < 0
    ensures n >= 0 ==> CanonicalDigits(s)
    ensures n < 0 ==> CanonicalDigits(s[1..]) && s[1..] != "0"
  {
    if n < 0 then
      var digits := NatToDigits(-n);
      assert ("-" + digits)[1..] == digits;
      "-" + digits
    else NatToDigits(n)
  }

  /** Reads what `IntToDecimal` writes: canonical digits, optionally after
      a minus sign, where `-0` is refused. */
  function ParseDecimal(s: string): (r: Option<int>)
    ensures r.Some? <==> CanonicalDigits(s) || (|s| > 1 && s[0] == '-' && CanonicalDigits(s[1..]) && s[1..] != "0")
  {
    if CanonicalDigits(s) then Some(DigitsValue(s) as int)
    else if |s| > 1 && s[0] == '-' && CanonicalDigits(s[1..]) && s[1..] != "0" then
      Some(0 - DigitsValue(s[1..]) as int)
    else None
  }

  lemma {:induction false} DigitsRoundTrip(n: nat)
    ensures DigitsValue(NatToDigits(n)) == n
    decreases n
  {
    var s := NatToDigits(n);
    if n >= 10 {
      DigitsRoundTrip(n / 10);
      assert s[..|s| - 1] == NatToDigits(n / 10);
    }
  }

  /** Digits without a leading zero have a positive value. */
  lemma {:induction false} DigitsPositive(s: string)
    requires |s| > 0 && AllDigits(s) && s[0] != '0'
    ensures DigitsValue(s) >= 1
    decreases |s|
  {
    if |s| > 1 {
      DigitsPositive(s[..|s| - 1]);
    }
  }

  /** Canonical digits are exactly what `NatToDigits` writes for their value. */
  lemma {:induction false} DigitsCanonical(s: string)
    requires CanonicalDigits(s)
    ensures NatToDigits(DigitsValue(s)) == s
    decreases |s|
  {
    if |s| > 1 {
      var p := s[..|s| - 1];
      assert p[0] == s[0];
      DigitsCanonical(p);
      DigitsPositive(p);
      var v := DigitsValue(s);
      assert v / 10 == DigitsValue(p) && v % 10 == DigitValue(s[|s| - 1]);
      assert s == p + [s[|s| - 1]];
    }
  }

  /** Reading back a rendered integer gives the integer. */
  lemma DecimalRoundTrip(n: int)
    ensures ParseDecimal(IntToDecimal(n)) == Some(n)
  {
    var s := IntToDecimal(n);
    if n < 0 {
      assert s[1..] == NatToDigits(-n);
      DigitsRoundTrip(-n);
    } else {
      DigitsRoundTrip(n);
    }
  }

  /** The parser accepts exactly the texts `IntToDecimal` writes: a text
      reads as `n` iff it is the rendering of `n`. */
  lemma DecimalParseExact(s: string, n: int)
    ensures ParseDecimal(s) == Some(n) <==> s == IntToDecimal(n)
  {
    if s == IntToDecimal(n) {
      DecimalRoundTrip(n);
    }
    if ParseDecimal(s) == Some(n) {
      if CanonicalDigits(s) {
        DigitsCanonical(s);
      } else {
        var t := s[1..];
        DigitsCanonical(t);
        DigitsPositive(t);
        assert s == "-" + t;
      }
    }
  }

  /** Two integers render the same only if they are equal. */
  lemma DecimalInjective(m: int, n: int)
    ensures IntToDecimal(m) == IntToDecimal(n) ==> m == n
  {
    DecimalRoundTrip(m);
    DecimalRoundTrip(n);
  }
}
