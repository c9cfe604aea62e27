/**
 * The decimal text JavaScript produces for the numbers in a failure log:
 * an integer interpolated into a template (`${exitCode}`, `${turns}`) and a
 * cost printed with `toFixed(4)`.  Each printer has a parser beside it and a
 * round-trip lemma connecting the two.
 */
module NumberText {
  import opened Wrappers

  predicate IsDigit(c: char) {
    '0' <= c <= '9'
  }

  predicate AllDigits(s: string) {
    forall i :: 0 <= i < |s| ==> IsDigit(s[i])
  }

  function DigitValue(c: char): nat
    requires IsDigit(c)
  {
    c as int - '0' as int
  }

  function DigitChar(d: nat): (c: char)
    requires d < 10
    ensures IsDigit(c) && DigitValue(c) == d
  {
    ('0' as int + d) as char
  }

  function Pow10(n: nat): (p: nat)
    ensures p >= 1
  {
    if n == 0 then 1 else 10 * Pow10(n - 1)
  }

  /** The number a string of decimal digits denotes, most significant digit first. */
  function DigitsValue(s: string): nat
    requires AllDigits(s)
  {
    if s == [] then 0 else DigitsValue(s[..|s| - 1]) * 10 + DigitValue(s[|s| - 1])
  }

  /**
   * The digits of n with no leading zero, as Number.prototype.toString
   * prints a non-negative integer (below 10^21).
   */
  function NatToText(n: nat): (s: string)
    ensures |s| >= 1 && AllDigits(s)
    ensures s[0] == '0' <==> n == 0
    ensures s[0] == '0' ==> s == "0"
  {
    if n < 10 then [DigitChar(n)] else NatToText(n / 10) + [DigitChar(n % 10)]
  }

  /** An integer as a template literal prints it: a '-' sign, then the digits of its magnitude. */
  function IntToText(i: int): (s: string)
    ensures |s| >= 1
    ensures s[0] == '-' <==> i < 0
    ensures var d := if i < 0 then s[1..] else s;
      |d| >= 1 && AllDigits(d) && (d[0] == '0' ==> d == "0")
  {
    if i < 0 then "-" + NatToText(-i) else NatToText(i)
  }

  /** A non-empty run of decimal digits, read as a number. */
  function ParseNat(s: string): (r: Option<nat>)
    ensures r.Some? <==> |s| > 0 && AllDigits(s)
  {
    if |s| > 0 && AllDigits(s) then Some(DigitsValue(s)) else None
  }

  /** An optional '-' sign followed by a non-empty run of decimal digits. */
  function ParseInt(s: string): (r: Option<int>)
    ensures |s| > 0 && s[0] == '-' && r.Some? ==> r.value <= 0
  {
    if |s| > 0 && s[0] == '-' then
      match ParseNat(s[1..])
      case Some(v) => Some(-(v as int))
      case None => None
    else
      match ParseNat(s)
      case Some(v) => Some(v)
      case None => None
  }

  lemma {:induction false} NatToTextValue(n: nat)
    ensures DigitsValue(NatToText(n)) == n
  {
    if n >= 10 {
      var s := NatToText(n);
      assert s[..|s| - 1] == NatToText(n / 10);
      NatToTextValue(n / 10);
    }
  }

  /** Reading back what NatToText prints gives the number printed. */
  lemma NatTextRoundTrip(n: nat)
    ensures ParseNat(NatToText(n)) == Some(n)
  {
    NatToTextValue(n);
  }

  /** Reading back what IntToText prints gives the integer printed. */
  lemma IntTextRoundTrip(i: int)
    ensures ParseInt(IntToText(i)) == Some(i)
  {
    if i < 0 {
      assert IntToText(i)[1..] == NatToText(-i);
      NatTextRoundTrip(-i);
    } else {
      NatTextRoundTrip(i);
    }
  }

  /** The value of a concatenation of digit strings: the left part shifted by the length of the right. */
  lemma {:induction false} DigitsValueAppend(a: string, b: string)
    requires AllDigits(a) && AllDigits(b)
    ensures AllDigits(a + b)
    ensures DigitsValue(a + b) == DigitsValue(a) * Pow10(|b|) + DigitsValue(b)
  {
    if b == [] {
      assert a + b == a;
    } else {
      var b' := b[..|b| - 1];
      var d := DigitValue(b[|b| - 1]);
      assert (a + b)[..|a + b| - 1] == a + b';
      assert (a + b)[|a + b| - 1] == b[|b| - 1];
      DigitsValueAppend(a, b');
      assert DigitsValue(a + b) == DigitsValue(a + b') * 10 + d;
      assert DigitsValue(b) == DigitsValue(b') * 10 + d;
      assert Pow10(|b|) == Pow10(|b'|) * 10;
      ShiftDigit(DigitsValue(a), Pow10(|b'|), DigitsValue(b'), d);
    }
  }

  lemma ShiftDigit(x: int, p: int, y: int, d: int)
    ensures (x * p + y) * 10 + d == x * (p * 10) + (y * 10 + d)
  {
  }

  /** k zero characters, the padding toFixed puts in front of a short digit string. */
  function Zeros(k: nat): (s: string)
    ensures |s| == k && AllDigits(s)
  {
    seq(k, _ => '0')
  }

  lemma {:induction false} ZerosValue(k: nat)
    ensures DigitsValue(Zeros(k)) == 0
  {
    if k > 0 {
      assert Zeros(k)[..k - 1] == Zeros(k - 1);
      ZerosValue(k - 1);
    }
  }

  /** Number of digits toFixed prints after the decimal point for a cost. */
  const CostFractionDigits: nat := 4

  /**
   * The integer n with n / 10^4 nearest to x, the larger one on a tie: the
   * number toFixed(4) prints, scaled by 10^4.
   */
  function RoundScaled(x: real): (n: int)
    ensures x * 10000.0 - 0.5 < n as real <= x * 10000.0 + 0.5
    ensures x >= 0.0 ==> n >= 0
  {
    (x * 10000.0 + 0.5).Floor
  }

  /**
   * Number.prototype.toFixed(4) for a non-negative x below 10^21: the
   * digits of the rounded scaled value, padded with zeros to at least five
   * digits, with a '.' before the last four.
   */
  function Fixed4(x: real): (s: string)
    requires x >= 0.0
    ensures |s| >= 6 && s[|s| - 5] == '.'
    ensures forall i :: 0 <= i < |s| && i != |s| - 5 ==> IsDigit(s[i])
    ensures s[0] == '0' ==> s[1] == '.'
  {
    var p := PadToFive(NatToText(RoundScaled(x)));
    p[..|p| - 4] + "." + p[|p| - 4..]
  }

  /** Zeros in front of a digit string shorter than five characters. */
  function PadToFive(m: string): (p: string)
    requires AllDigits(m)
    ensures |p| == if |m| < 5 then 5 else |m|
    ensures p[..|p| - |m|] == Zeros(|p| - |m|) && p[|p| - |m|..] == m
    ensures AllDigits(p) && DigitsValue(p) == DigitsValue(m)
  {
    if |m| <= 4 then
      DigitsValueAppend(Zeros(5 - |m|), m);
      ZerosValue(5 - |m|);
      Zeros(5 - |m|) + m
    else
      m
  }

  /** Reads "<digits>.<four digits>" back as a value scaled by 10^4. */
  function ParseFixed4(s: string): (r: Option<nat>)
    ensures r.Some? ==> |s| >= 6 && s[|s| - 5] == '.'
  {
    if |s| >= 6 && s[|s| - 5] == '.' then ScaledValue(s[..|s| - 5], s[|s| - 4..]) else None
  }

  /** The whole and fractional digit runs of a four-place decimal, as a value scaled by 10^4. */
  function ScaledValue(whole: string, frac: string): (r: Option<nat>)
    ensures r.Some? <==> AllDigits(whole) && AllDigits(frac)
  {
    if AllDigits(whole) && AllDigits(frac) then Some(DigitsValue(whole) * 10000 + DigitsValue(frac)) else None
  }

  lemma Pow10Four()
    ensures Pow10(4) == 10000
  {
    assert Pow10(1) == 10;
    assert Pow10(2) == 100;
    assert Pow10(3) == 1000;
  }

  lemma DigitsValueLast4(a: string, b: string)
    requires AllDigits(a) && AllDigits(b) && |b| == 4
    ensures AllDigits(a + b) && DigitsValue(a + b) == DigitsValue(a) * 10000 + DigitsValue(b)
  {
    DigitsValueAppend(a, b);
    Pow10Four();
  }

  lemma ParseJoined(a: string, b: string)
    requires |a| >= 1 && |b| == 4
    ensures ParseFixed4(a + "." + b) == ScaledValue(a, b)
  {
    var s := a + "." + b;
    assert s[|s| - 5] == '.';
    assert s[..|s| - 5] == a;
    assert s[|s| - 4..] == b;
  }

  /** Reading back digits with a point before the last four gives the digits' value. */
  lemma ParsePointed(a: string, b: string)
    requires |a| >= 1 && AllDigits(a) && |b| == 4 && AllDigits(b)
    ensures ParseFixed4(a + "." + b) == Some(DigitsValue(a + b))
  {
    DigitsValueLast4(a, b);
    ParseJoined(a, b);
  }

  /** Reading back what toFixed(4) prints gives the rounded, scaled amount. */
  lemma Fixed4RoundTrip(x: real)
    requires x >= 0.0
    ensures ParseFixed4(Fixed4(x)) == Some(RoundScaled(x))
  {
    var n := RoundScaled(x);
    NatToTextValue(n);
    var p := PadToFive(NatToText(n));
    var a, b := p[..|p| - 4], p[|p| - 4..];
    assert p == a + b;
    ParsePointed(a, b);
  }
}
