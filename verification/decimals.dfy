/** The part of Python's `decimal.Decimal` the amount validators rely on:
    reading positional text such as "-100.50", the value it denotes, and
    `str()` of the result, which switches to scientific notation for very
    small magnitudes. */
module Decimals {
  import opened Common

  /** A decimal read from positional text: the sign, the coefficient (all
      digits, point removed) and the number of digits after the point (the
      exponent is `-scale`). Trailing zeros are kept, as `Decimal` keeps them. */
  datatype Dec = Dec(negative: bool, coeff: nat, scale: nat)

  /** The number a decimal denotes. */
  function Value(d: Dec): real {
    var magnitude := (d.coeff as real) / (Pow10(d.scale) as real);
    if d.negative then -magnitude else magnitude
  }

  /** A decimal is below zero exactly when it has a minus sign and a
      non-zero coefficient (`Decimal('-0')` is not below zero). */
  lemma ValueSign(d: Dec)
    ensures Value(d) < 0.0 <==> d.negative && d.coeff > 0
    ensures Value(d) >= 0.0 <==> !d.negative || d.coeff == 0
  {
    var p := Pow10(d.scale) as real;
    assert p > 0.0;
    assert d.coeff > 0 ==> (d.coeff as real) / p > 0.0;
  }

  /** `Decimal(text)` on positional text: an optional sign, then digits with
      at most one point and at least one digit. `None` where `Decimal`
      raises InvalidOperation. */
  function Parse(s: string): (r: Option<Dec>)
    ensures r.Some? ==> (r.value.negative <==> s != [] && s[0] == '-')
  {
    var negative := s != [] && s[0] == '-';
    var body := if s != [] && (s[0] == '+' || s[0] == '-') then s[1..] else s;
    match FirstIndexOf(body, '.')
    case None =>
      if IsDigitString(body) then Some(Dec(negative, DigitsValue(body), 0)) else None
    case Some(i) =>
      var intPart := body[..i];
      var fracPart := body[i + 1..];
      if AllDigits(intPart) && AllDigits(fracPart) && |intPart| + |fracPart| > 0 then
        assert AllDigits(intPart + fracPart);
        Some(Dec(negative, DigitsValue(intPart + fracPart), |fracPart|))
      else None
  }

  function SignText(d: Dec): string {
    if d.negative then "-" else ""
  }

  /** The digits of the coefficient, as `Decimal` keeps them. */
  function CoeffDigits(d: Dec): (r: string)
    ensures |r| >= 1 && AllDigits(r) && '.' !in r
  {
    NatToString(d.coeff)
  }

  /** Positional notation: the point `scale` digits from the right, with a
      leading "0." and zeros when the coefficient is shorter. */
  function Positional(d: Dec): string {
    var c := CoeffDigits(d);
    if d.scale == 0 then c
    else if |c| > d.scale then c[..|c| - d.scale] + "." + c[|c| - d.scale..]
    else "0." + Zeros(d.scale - |c|) + c
  }

  /** The decimal written out positionally, whatever its magnitude. */
  function PlainStr(d: Dec): string {
    SignText(d) + Positional(d)
  }

  /** `str()` uses scientific notation when the adjusted exponent is below
      -6, i.e. when the point would need six or more leading zeros. */
  predicate Scientific(d: Dec) {
    |CoeffDigits(d)| - d.scale <= -6
  }

  /** `str()` in scientific notation: one digit, the rest after a point,
      then "E-" and the exponent. */
  function SciStr(d: Dec): string
    requires Scientific(d)
  {
    var c := CoeffDigits(d);
    var adjusted := d.scale + 1 - |c|;
    SignText(d) + [c[0]] + (if |c| > 1 then "." + c[1..] else "") + "E-" + NatToString(adjusted)
  }

  /** Python's `str(Decimal)`: an exponent marker exactly in the scientific
      form; otherwise the text reads back as the same decimal. */
  function PyStr(d: Dec): (r: string)
    ensures Scientific(d) ==> 'E' in r
    ensures !Scientific(d) ==> 'E' !in r && Parse(r) == Some(d)
  {
    if Scientific(d) then
      var r := SciStr(d);
      var c := CoeffDigits(d);
      var head := SignText(d) + [c[0]] + (if |c| > 1 then "." + c[1..] else "");
      assert r[|head|] == 'E';
      r
    else
      ParsePlainStr(d);
      PlainNoExponent(d);
      PlainStr(d)
  }

  lemma PlainNoExponent(d: Dec)
    ensures 'E' !in PlainStr(d)
  {
    var c := CoeffDigits(d);
    assert forall i :: 0 <= i < |c| ==> c[i] != 'E';
    if d.scale > 0 && |c| <= d.scale {
      var z := Zeros(d.scale - |c|);
      assert forall i :: 0 <= i < |z| ==> z[i] != 'E';
    }
  }

  /** `len(text.split('.')[-1]) if '.' in text else 0`: the number of
      characters after the last point. */
  function PlacesOf(text: string): nat {
    if '.' in text then |AfterLastDot(text)| else 0
  }

  /** The characters counted by `len(str(v).replace('.', ''))` for a
      positional rendering: the sign, and the coefficient's digits or, when
      the point leads, "0" and the `scale` digits after it. */
  function TotalDigits(d: Dec): nat {
    var signLength := if d.negative then 1 else 0;
    var c := CoeffDigits(d);
    signLength + (if |c| > d.scale then |c| else d.scale + 1)
  }

  lemma SplitPositional(d: Dec) returns (intPart: string, fracPart: string)
    requires d.scale > 0
    ensures Positional(d) == intPart + "." + fracPart
    ensures AllDigits(intPart) && AllDigits(fracPart) && |fracPart| == d.scale && intPart != []
    ensures |intPart| + |fracPart| == (if |CoeffDigits(d)| > d.scale then |CoeffDigits(d)| else d.scale + 1)
    ensures DigitsValue(intPart + fracPart) == d.coeff
  {
    var c := CoeffDigits(d);
    NatToStringValue(d.coeff);
    if |c| > d.scale {
      intPart, fracPart := c[..|c| - d.scale], c[|c| - d.scale..];
      assert intPart + fracPart == c;
    } else {
      intPart, fracPart := "0", Zeros(d.scale - |c|) + c;
      assert "0." + Zeros(d.scale - |c|) + c == intPart + "." + fracPart;
      assert intPart + fracPart == Zeros(d.scale - |c| + 1) + c;
      ZerosPrefixValue(d.scale - |c| + 1, c);
    }
  }

  /** What the validators read off the positional rendering: the digits
      after the point are exactly `scale`, and the count without points is
      `TotalDigits`. */
  lemma PlainStrMeasures(d: Dec)
    ensures PlacesOf(PlainStr(d)) == d.scale
    ensures |RemoveDots(PlainStr(d))| == TotalDigits(d)
  {
    if d.scale == 0 {
      var s := PlainStr(d);
      assert s == SignText(d) + CoeffDigits(d);
      assert '.' !in s;
      RemoveDotsNoDot(s);
    } else {
      var intPart, fracPart := SplitPositional(d);
      MeasuresOfSplit(SignText(d) + intPart, fracPart);
      assert PlainStr(d) == (SignText(d) + intPart) + "." + fracPart;
    }
  }

  lemma MeasuresOfSplit(a: string, b: string)
    requires '.' !in a && '.' !in b
    ensures PlacesOf(a + "." + b) == |b|
    ensures |RemoveDots(a + "." + b)| == |a| + |b|
  {
    var s := a + "." + b;
    assert s[|a|] == '.';
    AfterLastDotOfSplit(a, b);
    RemoveDotsOfSplit(a, b);
  }

  /** Reading back the positional rendering gives the same decimal: sign,
      coefficient and scale all survive. */
  lemma ParsePlainStr(d: Dec)
    ensures Parse(PlainStr(d)) == Some(d)
  {
    ParsePositional(d);
    if d.negative {
      ParseNegated(Positional(d));
    } else {
      assert PlainStr(d) == Positional(d);
    }
  }

  lemma ParsePositional(d: Dec)
    ensures IsDigit(Positional(d)[0])
    ensures Parse(Positional(d)) == Some(d.(negative := false))
  {
    NatToStringValue(d.coeff);
    if d.scale == 0 {
      assert Positional(d) == CoeffDigits(d);
      assert '.' !in Positional(d);
    } else {
      var intPart, fracPart := SplitPositional(d);
      ParseSplit(intPart, fracPart);
    }
  }

  lemma ParseSplit(intPart: string, fracPart: string)
    requires AllDigits(intPart) && AllDigits(fracPart) && intPart != []
    ensures IsDigit((intPart + "." + fracPart)[0])
    ensures Parse(intPart + "." + fracPart) == Some(Dec(false, DigitsValue(intPart + fracPart), |fracPart|))
  {
    var body := intPart + "." + fracPart;
    assert '.' !in intPart;
    FirstIndexOfConcat(intPart, '.', fracPart);
    assert body[..|intPart|] == intPart;
    assert body[|intPart| + 1..] == fracPart;
  }

  /** A leading minus sign only sets the sign. */
  lemma ParseNegated(body: string)
    requires body != [] && IsDigit(body[0]) && Parse(body).Some?
    ensures Parse("-" + body) == Some(Parse(body).value.(negative := true))
  {
    assert ("-" + body)[1..] == body;
  }

  /** A positional rendering has no surrounding whitespace. */
  lemma PlainStrStripped(d: Dec)
    ensures Strip(PlainStr(d)) == PlainStr(d)
  {
    var s := PlainStr(d);
    if d.scale == 0 {
      assert s == SignText(d) + CoeffDigits(d);
    } else {
      var intPart, fracPart := SplitPositional(d);
      assert s == SignText(d) + intPart + "." + fracPart;
      assert s[|s| - 1] == fracPart[|fracPart| - 1];
    }
    StripUnpadded(s);
  }

  /** Outside scientific notation, `str()` is the positional rendering. */
  lemma PyStrPlain(d: Dec)
    requires !Scientific(d)
    ensures PyStr(d) == PlainStr(d)
  {
  }
}
