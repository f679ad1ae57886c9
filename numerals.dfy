/** Decimal text of integers, as JavaScript's `toString` writes an integer, and the
    two-decimal percentage text that `toFixed(2)` produces, over an integer count of
    hundredths of a percent. Each writer has a reader, and the round trip is proved. */
module Numerals {

  predicate IsDigit(c: char) {
    '0' <= c <= '9'
  }

  predicate AllDigits(s: string) {
    forall i :: 0 <= i < |s| ==> IsDigit(s[i])
  }

  function DigitChar(d: nat): (c: char)
    requires d < 10
    ensures IsDigit(c)
  {
    "0123456789"[d]
  }

  function DigitValue(c: char): (d: nat)
    requires IsDigit(c)
    ensures d < 10
  {
    (c as int - '0' as int) as nat
  }

  lemma DigitRoundTrip(d: nat)
    requires d < 10
    ensures DigitValue(DigitChar(d)) == d
  {
  }

  /** The shortest decimal numeral of `n`: no leading zero unless `n` is zero. */
  function NatToString(n: nat): (s: string)
    ensures |s| >= 1 && AllDigits(s)
    ensures |s| > 1 ==> s[0] != '0'
    decreases n
  {
    if n < 10 then [DigitChar(n)] else NatToString(n / 10) + [DigitChar(n % 10)]
  }

  /** The decimal text of an integer: a minus sign for a negative one, then its
      shortest numeral. JavaScript's `String(n)` writes the same text for an integral
      number below 10^21 in magnitude. */
  function IntToString(i: int): (s: string)
    ensures |s| >= 1
    ensures (s[0] == '-') <==> i < 0
  {
    if i < 0 then "-" + NatToString(-i) else NatToString(i)
  }

  function ParseNat(s: string): (n: nat)
    requires AllDigits(s)
    decreases |s|
  {
    if s == [] then 0 else ParseNat(s[..|s| - 1]) * 10 + DigitValue(s[|s| - 1])
  }

  function ParseInt(s: string): (i: int)
    requires |s| >= 1
    requires s[0] == '-' ==> AllDigits(s[1..])
    requires s[0] != '-' ==> AllDigits(s)
  {
    if s[0] == '-' then -(ParseNat(s[1..]) as int) else ParseNat(s)
  }

  lemma {:induction false} ParseNatToString(n: nat)
    ensures ParseNat(NatToString(n)) == n
    decreases n
  {
    var s := NatToString(n);
    if n < 10 {
      DigitRoundTrip(n);
    } else {
      ParseNatToString(n / 10);
      assert s[..|s| - 1] == NatToString(n / 10);
      DigitRoundTrip(n % 10);
    }
  }

  /** Reading back the text of an integer yields that integer. */
  lemma ParseIntToString(i: int)
    ensures var s := IntToString(i);
      (s[0] == '-' ==> AllDigits(s[1..])) && (s[0] != '-' ==> AllDigits(s)) &&
      ParseInt(s) == i
  {
    var s := IntToString(i);
    if i < 0 {
      assert s[1..] == NatToString(-i);
      ParseNatToString(-i);
    } else {
      ParseNatToString(i);
    }
  }

  lemma IntToStringInjective(i: int, j: int)
    requires IntToString(i) == IntToString(j)
    ensures i == j
  {
    ParseIntToString(i);
    ParseIntToString(j);
  }

  /** `(confidence * 100).toFixed(2)`, where `h` is the percentage in hundredths
      (the value the two decimals show): integral part, a point, two digits. */
  function PercentText(h: nat): (s: string)
    ensures PercentShaped(s)
  {
    var s := NatToString(h / 100) + "." + [DigitChar(h % 100 / 10), DigitChar(h % 10)];
    assert s[..|s| - 3] == NatToString(h / 100);
    s
  }

  /** Digits, a point and exactly two more digits. */
  predicate PercentShaped(s: string) {
    |s| >= 4 && s[|s| - 3] == '.' &&
    AllDigits(s[..|s| - 3]) && IsDigit(s[|s| - 2]) && IsDigit(s[|s| - 1])
  }

  function ParsePercent(s: string): (h: nat)
    requires PercentShaped(s)
  {
    ParseNat(s[..|s| - 3]) * 100 + DigitValue(s[|s| - 2]) * 10 + DigitValue(s[|s| - 1])
  }

  lemma ParsePercentText(h: nat)
    ensures ParsePercent(PercentText(h)) == h
  {
    var s := PercentText(h);
    assert s[..|s| - 3] == NatToString(h / 100);
    ParseNatToString(h / 100);
    DigitRoundTrip(h % 100 / 10);
    DigitRoundTrip(h % 10);
  }

  /** The percentage text is "0.00" exactly when the rounded percentage is zero. */
  lemma PercentTextZero(h: nat)
    ensures PercentText(h) == "0.00" <==> h == 0
  {
    ParsePercentText(h);
    if PercentText(h) == "0.00" {
      assert ParsePercent("0.00") == 0;
    }
  }
}
