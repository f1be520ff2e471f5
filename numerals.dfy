/**
  Decimal numerals as Python 2's int() / string.atoi and float() / string.atof read them
  from a whitespace-free token: an optional sign, then decimal digits (for a float, with
  at most one decimal point and at least one digit). A token they reject is None here;
  the source raises ValueError.
 */
module Numerals {
  import opened Wrappers

  predicate IsDigit(c: char) {
    '0' <= c <= '9'
  }

  predicate AllDigits(s: string) {
    forall i :: 0 <= i < |s| ==> IsDigit(s[i])
  }

  function DigitValue(c: char): (d: nat)
    requires IsDigit(c)
    ensures d < 10
  {
    c as int - '0' as int
  }

  /** The value of a string of decimal digits, most significant first. */
  function DigitsValue(s: string): nat
    requires AllDigits(s)
  {
    if s == [] then 0 else DigitsValue(s[..|s| - 1]) * 10 + DigitValue(s[|s| - 1])
  }

  predicate IsSign(c: char) {
    c == '+' || c == '-'
  }

  /** The digits after an optional sign. */
  function Unsigned(s: string): string {
    if |s| > 0 && IsSign(s[0]) then s[1..] else s
  }

  function ApplySign(s: string, v: real): real {
    if |s| > 0 && s[0] == '-' then -v else v
  }

  /** int(s): an optional sign followed by one or more digits. */
  function ParseInt(s: string): (r: Option<int>)
    ensures r.Some? <==> |Unsigned(s)| > 0 && AllDigits(Unsigned(s))
    ensures r.Some? && |s| > 0 && s[0] == '-' ==> r.value <= 0
    ensures r.Some? && !(|s| > 0 && s[0] == '-') ==> r.value >= 0
  {
    var u := Unsigned(s);
    if |u| > 0 && AllDigits(u) then
      Some(if |s| > 0 && s[0] == '-' then -(DigitsValue(u) as int) else DigitsValue(u) as int)
    else None
  }

  /** The position of the first '.' in s, or |s| when there is none. */
  function PointAt(s: string): (p: nat)
    ensures p <= |s|
    ensures forall i :: 0 <= i < p ==> s[i] != '.'
    ensures p < |s| ==> s[p] == '.'
  {
    if s == [] then 0 else if s[0] == '.' then 0 else 1 + PointAt(s[1..])
  }

  function Pow10(n: nat): (p: nat)
    ensures p >= 1
  {
    if n == 0 then 1 else 10 * Pow10(n - 1)
  }

  /** float(s): an optional sign, then digits with at most one decimal point and at least
      one digit, such as "12", "12.5", ".5" and "5.". */
  function ParseFloat(s: string): (r: Option<real>)
    ensures r.Some? ==> |Unsigned(s)| > 0
    ensures r.Some? && |s| > 0 && s[0] == '-' ==> r.value <= 0.0
    ensures r.Some? && !(|s| > 0 && s[0] == '-') ==> r.value >= 0.0
    ensures ParseInt(s).Some? ==> r == Some(ParseInt(s).value as real)
  {
    var u := Unsigned(s);
    var whole, frac := WholePart(u), FractionPart(u);
    if |whole| + |frac| > 0 && AllDigits(whole) && AllDigits(frac) then
      assert PointAt(u) == |u| ==> whole == u;
      Some(ApplySign(s, DecimalValue(whole, frac)))
    else None
  }

  /** The value of the digits before and after a decimal point: the whole part plus the
      fractional digits over the power of ten they fill. */
  function DecimalValue(whole: string, frac: string): real
    requires AllDigits(whole) && AllDigits(frac)
  {
    DigitsValue(whole) as real + DigitsValue(frac) as real / Pow10(|frac|) as real
  }

  /** The characters before the first point. */
  function WholePart(u: string): string {
    u[..PointAt(u)]
  }

  /** The characters after the first point, if there is one. */
  function FractionPart(u: string): string {
    var p := PointAt(u);
    if p < |u| then u[p + 1..] else []
  }

  /** The numerals float() reads, described by where their point is: digits alone, or
      digits, a point and digits with at least one digit in all. */
  predicate DecimalNumeral(u: string) {
    (|u| > 0 && AllDigits(u)) ||
    (|u| > 1 && exists p :: 0 <= p < |u| && u[p] == '.' && AllDigits(u[..p]) && AllDigits(u[p + 1..]))
  }

  /** The first point after a run of digits is the one that ends the run. */
  lemma PointAfterDigits(w: string, rest: string)
    requires AllDigits(w)
    ensures PointAt(w) == |w|
    ensures PointAt(w + "." + rest) == |w|
  {
    var s := w + "." + rest;
    var p := PointAt(s);
    assert s[|w|] == '.';
  }

  /** The parts of digits, a point and digits are those digits. */
  lemma DecimalParts(w: string, f: string)
    requires AllDigits(w)
    ensures WholePart(w + "." + f) == w && FractionPart(w + "." + f) == f
  {
    var u := w + "." + f;
    PointAfterDigits(w, f);
    assert u[..|w|] == w && u[|w| + 1..] == f;
  }

  /** A numeral whose parts float() accepts is a decimal numeral. */
  lemma AcceptedIsNumeral(u: string)
    requires |WholePart(u)| + |FractionPart(u)| > 0 && AllDigits(WholePart(u)) && AllDigits(FractionPart(u))
    ensures DecimalNumeral(u)
  {
    var p := PointAt(u);
    if p < |u| {
      assert u[..p] == WholePart(u) && u[p + 1..] == FractionPart(u);
      assert |u| == |WholePart(u)| + 1 + |FractionPart(u)|;
    } else {
      assert WholePart(u) == u;
    }
  }

  /** float() accepts the parts of every decimal numeral. */
  lemma NumeralIsAccepted(u: string)
    requires DecimalNumeral(u)
    ensures |WholePart(u)| + |FractionPart(u)| > 0 && AllDigits(WholePart(u)) && AllDigits(FractionPart(u))
  {
    if |u| > 0 && AllDigits(u) {
      PointAfterDigits(u, "");
      assert WholePart(u) == u;
    } else {
      var q :| 0 <= q < |u| && u[q] == '.' && AllDigits(u[..q]) && AllDigits(u[q + 1..]);
      assert u == u[..q] + "." + u[q + 1..];
      DecimalParts(u[..q], u[q + 1..]);
    }
  }

  /** float() accepts exactly an optional sign followed by a decimal numeral. */
  lemma ParseFloatAccepts(s: string)
    ensures ParseFloat(s).Some? <==> DecimalNumeral(Unsigned(s))
  {
    var u := Unsigned(s);
    if ParseFloat(s).Some? {
      AcceptedIsNumeral(u);
    }
    if DecimalNumeral(u) {
      NumeralIsAccepted(u);
    }
  }

  /** The value of a decimal numeral, negated under a '-' sign. */
  lemma ParseFloatOfDecimal(w: string, f: string)
    requires AllDigits(w) && AllDigits(f) && |w| + |f| > 0
    ensures ParseFloat(w + "." + f) == Some(DecimalValue(w, f))
    ensures ParseFloat("-" + w + "." + f) == Some(-DecimalValue(w, f))
  {
    var u := w + "." + f;
    DecimalParts(w, f);
    if |w| > 0 {
      assert IsDigit(u[0]);
    }
    assert Unsigned(u) == u;
    assert "-" + w + "." + f == "-" + u;
    assert Unsigned("-" + u) == u;
  }

  /** A kWh price as it is stored, read back. */
  lemma ParseFloatExample()
    ensures ParseFloat("0.15") == Some(0.15)
  {
    var w, f := "0", "15";
    assert DigitsValue(w) == 0;
    assert DigitsValue(f) == 15 by {
      assert f[..1] == "1";
    }
    assert Pow10(|f|) == 100;
    assert DecimalValue(w, f) == 0.15;
    ParseFloatOfDecimal(w, f);
    assert w + "." + f == "0.15";
  }

  /** A signed numeral with no whole part. */
  lemma SignedFractionExample()
    ensures ParseFloat("-.5") == Some(-0.5)
  {
    var w, f := "", "5";
    assert DigitsValue(f) == 5 && Pow10(|f|) == 10;
    assert DecimalValue(w, f) == 0.5;
    ParseFloatOfDecimal(w, f);
    assert "-" + w + "." + f == "-.5";
  }

  /** The decimal digits of a natural number, as Python's str() writes them. */
  function NatToString(n: nat): (s: string)
    ensures |s| > 0 && AllDigits(s)
    decreases n
  {
    if n < 10 then [('0' as int + n) as char]
    else NatToString(n / 10) + [('0' as int + n % 10) as char]
  }

  /** The numeral written for an integer: a '-' in front of a negative one. */
  function IntToString(n: int): string {
    if n < 0 then "-" + NatToString(-n) else NatToString(n)
  }

  lemma {:induction false} NatToStringValue(n: nat)
    ensures DigitsValue(NatToString(n)) == n
    decreases n
  {
    var s := NatToString(n);
    if n >= 10 {
      NatToStringValue(n / 10);
      assert s[..|s| - 1] == NatToString(n / 10);
    }
  }

  /** Reading back a written integer gives the integer, with int() and with float(). */
  lemma ParseIntOfIntToString(n: int)
    ensures ParseInt(IntToString(n)) == Some(n)
    ensures ParseFloat(IntToString(n)) == Some(n as real)
  {
    NatToStringValue(if n < 0 then -n else n);
    if n < 0 {
      assert Unsigned(IntToString(n)) == NatToString(-n);
    } else {
      assert Unsigned(IntToString(n)) == NatToString(n);
    }
  }
}
