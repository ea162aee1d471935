/** CUIT (Código Único de Identificación Tributaria), the 11-digit tax
    identifier of issuers and recipients. */
module Cuit {
  import opened Common

  datatype CuitNumber = CuitNumber(number: string)

  /** Why a candidate number is refused: the field's length bounds, checked
      first, then the validator's digit test. */
  datatype CuitError = StringTooShort | StringTooLong | NotOnlyNumbers

  const CuitLength: nat := 11

  /** Constructing `CUITNumber(number=v)`: the field admits exactly 11
      characters, and the validator then demands that all are digits. */
  function ValidateCuit(v: string): (r: Result<CuitNumber, CuitError>)
    ensures r.Ok? <==> |v| == CuitLength && AllDigits(v)
    ensures r.Ok? ==> r.value.number == v
    ensures r == Err(StringTooShort) <==> |v| < CuitLength
    ensures r == Err(StringTooLong) <==> |v| > CuitLength
  {
    if |v| < CuitLength then Err(StringTooShort)
    else if |v| > CuitLength then Err(StringTooLong)
    else if !IsDigitString(v) then Err(NotOnlyNumbers)
    else Ok(CuitNumber(v))
  }

  /** `CUITNumber.from_string`: drop every non-digit, then validate what is
      left. Punctuation can therefore never be the reason for a refusal. */
  function FromString(value: string): (r: Result<CuitNumber, CuitError>)
    ensures r.Ok? <==> |KeepDigits(value)| == CuitLength
    ensures r.Ok? ==> r.value.number == KeepDigits(value) && IsDigitString(r.value.number)
    ensures r.Err? ==> r.error != NotOnlyNumbers
  {
    ValidateCuit(KeepDigits(value))
  }

  /** `create_cuit_number`: the module-level constructor; it accepts and
      refuses exactly what `FromString` does and yields the same number. */
  function CreateCuitNumber(cuit: string): (r: Result<CuitNumber, CuitError>)
    ensures r.Ok? <==> |KeepDigits(cuit)| == CuitLength
    ensures r.Ok? ==> r.value.number == KeepDigits(cuit)
    ensures r.Err? ==> r.error == (if |KeepDigits(cuit)| < CuitLength then StringTooShort else StringTooLong)
  {
    FromString(cuit)
  }

  /** Filtering digits leaves a string of digits unchanged. */
  lemma {:induction false} KeepDigitsOfDigits(s: string)
    requires AllDigits(s)
    ensures KeepDigits(s) == s
  {
    if s != [] {
      KeepDigitsOfDigits(s[..|s| - 1]);
    }
  }

  /** Filtering distributes over concatenation: the digits are kept in order. */
  lemma {:induction false} KeepDigitsConcat(a: string, b: string)
    ensures KeepDigits(a + b) == KeepDigits(a) + KeepDigits(b)
  {
    if b == [] {
      assert a + b == a;
    } else {
      assert (a + b)[..|a + b| - 1] == a + b[..|b| - 1];
      KeepDigitsConcat(a, b[..|b| - 1]);
    }
  }

  /** A non-digit character contributes nothing; a digit contributes itself. */
  lemma KeepDigitsChar(c: char)
    ensures KeepDigits([c]) == if IsDigit(c) then [c] else []
  {
    assert [c][..0] == [];
  }

  /** Re-validating an accepted number yields that same number. */
  lemma FromStringIdempotent(value: string)
    requires FromString(value).Ok?
    ensures FromString(FromString(value).value.number) == FromString(value)
  {
    KeepDigitsOfDigits(KeepDigits(value));
  }

  /** A dash between two parts contributes nothing. */
  lemma KeepDigitsSkipsDash(x: string, y: string)
    ensures KeepDigits(x + "-" + y) == KeepDigits(x) + KeepDigits(y)
  {
    var dash := "-";
    KeepDigitsChar('-');
    KeepDigitsConcat(x, dash);
    KeepDigitsConcat(x + dash, y);
    assert KeepDigits(x + dash) == KeepDigits(x);
  }

  /** Dashes in the written form, as in "20-32861954-8", are dropped: the
      number is its three digit groups run together. */
  lemma FromStringWithDashes(a: string, b: string, c: string)
    requires AllDigits(a) && AllDigits(b) && AllDigits(c) && |a| + |b| + |c| == CuitLength
    ensures FromString(a + "-" + b + "-" + c) == Ok(CuitNumber(a + b + c))
  {
    KeepDigitsSkipsDash(a, b);
    KeepDigitsSkipsDash(a + "-" + b, c);
    KeepDigitsOfDigits(a);
    KeepDigitsOfDigits(b);
    KeepDigitsOfDigits(c);
    assert AllDigits(a + b + c);
  }
}
