/** Issuer types, invoice types, the table of which invoice types each kind
    of issuer may emit, and the punto de venta (sales point) number. */
module InvoiceTypes {
  import opened Common

  datatype IssuerType = ResponsableInscripto | Monotributo

  /** The enum member names, as they appear in the invoice records. */
  function IssuerTypeName(i: IssuerType): string {
    match i
    case ResponsableInscripto => "RESPONSABLE_INSCRIPTO"
    case Monotributo => "MONOTRIBUTO"
  }

  /** `IssuerType[name]`: lookup by member name; `None` where Python raises KeyError. */
  function IssuerTypeFromName(name: string): (r: Option<IssuerType>)
    ensures r.Some? ==> IssuerTypeName(r.value) == name
    ensures r.None? ==> forall i: IssuerType :: IssuerTypeName(i) != name
  {
    if name == "RESPONSABLE_INSCRIPTO" then Some(ResponsableInscripto)
    else if name == "MONOTRIBUTO" then Some(Monotributo)
    else None
  }

  datatype InvoiceType =
    // Monotributo
    | FacturaC | NotaDebitoC | NotaCreditoC | ReciboC
    // Responsable Inscripto
    | FacturaA | NotaDebitoA | NotaCreditoA | ReciboA
    | FacturaB | NotaDebitoB | NotaCreditoB | ReciboB
    | FacturaT | NotaDebitoT | NotaCreditoT
    // MiPyME electronic credit invoices, Responsable Inscripto
    | FacturaCreditoMipymeA | NotaDebitoMipymeA | NotaCreditoMipymeA
    | FacturaCreditoMipymeB | NotaDebitoMipymeB | NotaCreditoMipymeB
    // MiPyME electronic credit invoices, Monotributo
    | FacturaCreditoMipymeC | NotaDebitoMipymeC | NotaCreditoMipymeC

  /** The portal's numeric code of each invoice type (the enum value). */
  function InvoiceCode(t: InvoiceType): nat {
    match t
    case FacturaC => 2
    case NotaDebitoC => 3
    case NotaCreditoC => 4
    case ReciboC => 5
    case FacturaA => 10
    case NotaDebitoA => 11
    case NotaCreditoA => 12
    case ReciboA => 13
    case FacturaB => 19
    case NotaDebitoB => 21
    case NotaCreditoB => 23
    case ReciboB => 25
    case FacturaT => 111
    case NotaDebitoT => 112
    case NotaCreditoT => 113
    case FacturaCreditoMipymeA => 114
    case NotaDebitoMipymeA => 115
    case NotaCreditoMipymeA => 116
    case FacturaCreditoMipymeB => 117
    case NotaDebitoMipymeB => 118
    case NotaCreditoMipymeB => 119
    case FacturaCreditoMipymeC => 120
    case NotaDebitoMipymeC => 121
    case NotaCreditoMipymeC => 122
  }

  function InvoiceTypeName(t: InvoiceType): string {
    match t
    case FacturaC => "FACTURA_C"
    case NotaDebitoC => "NOTA_DEBITO_C"
    case NotaCreditoC => "NOTA_CREDITO_C"
    case ReciboC => "RECIBO_C"
    case FacturaA => "FACTURA_A"
    case NotaDebitoA => "NOTA_DEBITO_A"
    case NotaCreditoA => "NOTA_CREDITO_A"
    case ReciboA => "RECIBO_A"
    case FacturaB => "FACTURA_B"
    case NotaDebitoB => "NOTA_DEBITO_B"
    case NotaCreditoB => "NOTA_CREDITO_B"
    case ReciboB => "RECIBO_B"
    case FacturaT => "FACTURA_T"
    case NotaDebitoT => "NOTA_DEBITO_T"
    case NotaCreditoT => "NOTA_CREDITO_T"
    case FacturaCreditoMipymeA => "FACTURA_CREDITO_ELECTRONICA_MIPYME_A"
    case NotaDebitoMipymeA => "NOTA_DEBITO_ELECTRONICA_MIPYME_A"
    case NotaCreditoMipymeA => "NOTA_CREDITO_ELECTRONICA_MIPYME_A"
    case FacturaCreditoMipymeB => "FACTURA_CREDITO_ELECTRONICA_MIPYME_B"
    case NotaDebitoMipymeB => "NOTA_DEBITO_ELECTRONICA_MIPYME_B"
    case NotaCreditoMipymeB => "NOTA_CREDITO_ELECTRONICA_MIPYME_B"
    case FacturaCreditoMipymeC => "FACTURA_CREDITO_ELECTRONICA_MIPYME_C"
    case NotaDebitoMipymeC => "NOTA_DEBITO_ELECTRONICA_MIPYME_C"
    case NotaCreditoMipymeC => "NOTA_CREDITO_ELECTRONICA_MIPYME_C"
  }

  /** Every invoice type, in declaration order. */
  const AllInvoiceTypes: seq<InvoiceType> := [
    FacturaC, NotaDebitoC, NotaCreditoC, ReciboC,
    FacturaA, NotaDebitoA, NotaCreditoA, ReciboA,
    FacturaB, NotaDebitoB, NotaCreditoB, ReciboB,
    FacturaT, NotaDebitoT, NotaCreditoT,
    FacturaCreditoMipymeA, NotaDebitoMipymeA, NotaCreditoMipymeA,
    FacturaCreditoMipymeB, NotaDebitoMipymeB, NotaCreditoMipymeB,
    FacturaCreditoMipymeC, NotaDebitoMipymeC, NotaCreditoMipymeC]

  /** `InvoiceType[name]`: lookup by member name; `None` where Python raises KeyError. */
  function InvoiceTypeFromName(name: string): (r: Option<InvoiceType>)
    ensures r.Some? ==> InvoiceTypeName(r.value) == name
  {
    LookupName(AllInvoiceTypes, name)
  }

  function LookupName(ts: seq<InvoiceType>, name: string): (r: Option<InvoiceType>)
    ensures r.Some? ==> r.value in ts && InvoiceTypeName(r.value) == name
    ensures r.None? ==> forall i :: 0 <= i < |ts| ==> InvoiceTypeName(ts[i]) != name
  {
    if ts == [] then None
    else if InvoiceTypeName(ts[0]) == name then Some(ts[0])
    else LookupName(ts[1..], name)
  }

  lemma AllInvoiceTypesComplete(t: InvoiceType)
    ensures t in AllInvoiceTypes
  {
  }

  /** A name is unknown exactly when no invoice type carries it. */
  lemma InvoiceTypeFromNameNone(name: string)
    ensures InvoiceTypeFromName(name).None? <==> forall t: InvoiceType :: InvoiceTypeName(t) != name
  {
    if InvoiceTypeFromName(name).None? {
      forall t: InvoiceType ensures InvoiceTypeName(t) != name {
        AllInvoiceTypesComplete(t);
        var i :| 0 <= i < |AllInvoiceTypes| && AllInvoiceTypes[i] == t;
      }
    }
  }

  /** `INVOICE_TYPE_DESCRIPTIONS`: defined for every invoice type. */
  function InvoiceDescription(t: InvoiceType): string {
    match t
    case FacturaC => "Factura C"
    case NotaDebitoC => "Nota de Débito C"
    case NotaCreditoC => "Nota de Crédito C"
    case ReciboC => "Recibo C"
    case FacturaCreditoMipymeC => "Factura de Crédito Electrónica MiPyMEs (FCE) C"
    case NotaDebitoMipymeC => "Nota de Débito Electrónica MiPyMEs (FCE) C"
    case NotaCreditoMipymeC => "Nota de Crédito Electrónica MiPyMEs (FCE) C"
    case FacturaA => "Factura A"
    case NotaDebitoA => "Nota de Débito A"
    case NotaCreditoA => "Nota de Crédito A"
    case ReciboA => "Recibo A"
    case FacturaB => "Factura B"
    case NotaDebitoB => "Nota de Débito B"
    case NotaCreditoB => "Nota de Crédito B"
    case ReciboB => "Recibo B"
    case FacturaT => "Factura T"
    case NotaDebitoT => "Nota de Débito T"
    case NotaCreditoT => "Nota de Crédito T"
    case FacturaCreditoMipymeA => "Factura de Crédito Electrónica MiPyMEs (FCE) A"
    case NotaDebitoMipymeA => "Nota de Débito Electrónica MiPyMEs (FCE) A"
    case NotaCreditoMipymeA => "Nota de Crédito Electrónica MiPyMEs (FCE) A"
    case FacturaCreditoMipymeB => "Factura de Crédito Electrónica MiPyMEs (FCE) B"
    case NotaDebitoMipymeB => "Nota de Débito Electrónica MiPyMEs (FCE) B"
    case NotaCreditoMipymeB => "Nota de Crédito Electrónica MiPyMEs (FCE) B"
  }

  /** `ALLOWED_INVOICE_TYPES`. */
  function AllowedInvoiceTypes(i: IssuerType): set<InvoiceType> {
    match i
    case Monotributo =>
      {FacturaC, NotaDebitoC, NotaCreditoC, ReciboC,
       FacturaCreditoMipymeC, NotaDebitoMipymeC, NotaCreditoMipymeC}
    case ResponsableInscripto =>
      {FacturaA, NotaDebitoA, NotaCreditoA, ReciboA,
       FacturaB, NotaDebitoB, NotaCreditoB, ReciboB,
       FacturaT, NotaDebitoT, NotaCreditoT,
       FacturaCreditoMipymeA, NotaDebitoMipymeA, NotaCreditoMipymeA,
       FacturaCreditoMipymeB, NotaDebitoMipymeB, NotaCreditoMipymeB}
  }

  /** `validate_invoice_type_for_issuer`: Monotributo issuers emit exactly
      the documents of letter C, Responsable Inscripto issuers all others. */
  predicate ValidateInvoiceTypeForIssuer(t: InvoiceType, i: IssuerType): (b: bool)
    ensures b <==> (DocumentLetter(t) == 'C' <==> i == Monotributo)
  {
    MonotributoLetterC(t);
    AllowedSetsDisjoint();
    AllowedSetsCover(t);
    t in AllowedInvoiceTypes(i)
  }

  /** The letter a document carries, as its name and description show it. */
  function DocumentLetter(t: InvoiceType): char {
    match t
    case FacturaC | NotaDebitoC | NotaCreditoC | ReciboC => 'C'
    case FacturaCreditoMipymeC | NotaDebitoMipymeC | NotaCreditoMipymeC => 'C'
    case FacturaA | NotaDebitoA | NotaCreditoA | ReciboA => 'A'
    case FacturaCreditoMipymeA | NotaDebitoMipymeA | NotaCreditoMipymeA => 'A'
    case FacturaB | NotaDebitoB | NotaCreditoB | ReciboB => 'B'
    case FacturaCreditoMipymeB | NotaDebitoMipymeB | NotaCreditoMipymeB => 'B'
    case FacturaT | NotaDebitoT | NotaCreditoT => 'T'
  }

  lemma MonotributoLetterC(t: InvoiceType)
    ensures t in AllowedInvoiceTypes(Monotributo) <==> DocumentLetter(t) == 'C'
  {
    match t
    case FacturaC | NotaDebitoC | NotaCreditoC | ReciboC
       | FacturaCreditoMipymeC | NotaDebitoMipymeC | NotaCreditoMipymeC =>
    case FacturaA | NotaDebitoA | NotaCreditoA | ReciboA
       | FacturaCreditoMipymeA | NotaDebitoMipymeA | NotaCreditoMipymeA =>
    case FacturaB | NotaDebitoB | NotaCreditoB | ReciboB
       | FacturaCreditoMipymeB | NotaDebitoMipymeB | NotaCreditoMipymeB =>
    case FacturaT | NotaDebitoT | NotaCreditoT =>
  }

  /** No invoice type is allowed to both kinds of issuer. */
  lemma AllowedSetsDisjoint()
    ensures AllowedInvoiceTypes(Monotributo) !! AllowedInvoiceTypes(ResponsableInscripto)
  {
  }

  /** Together the two allowed sets cover every invoice type. */
  lemma AllowedSetsCover(t: InvoiceType)
    ensures t in AllowedInvoiceTypes(Monotributo) || t in AllowedInvoiceTypes(ResponsableInscripto)
  {
  }

  /** Monotributo issuers may emit 7 invoice types. */
  lemma MonotributoAllowedSize()
    ensures |AllowedInvoiceTypes(Monotributo)| == 7
  {
    var c := {FacturaC, NotaDebitoC, NotaCreditoC, ReciboC};
    var mipyme := {FacturaCreditoMipymeC, NotaDebitoMipymeC, NotaCreditoMipymeC};
    assert |c| == 4;
    assert |mipyme| == 3;
    assert c !! mipyme;
    assert AllowedInvoiceTypes(Monotributo) == c + mipyme;
  }

  /** Responsable Inscripto issuers may emit 17 invoice types. */
  lemma ResponsableInscriptoAllowedSize()
    ensures |AllowedInvoiceTypes(ResponsableInscripto)| == 17
  {
    var abt := {FacturaA, NotaDebitoA, NotaCreditoA, ReciboA, FacturaB, NotaDebitoB, NotaCreditoB, ReciboB};
    var mipyme := {FacturaT, NotaDebitoT, NotaCreditoT, FacturaCreditoMipymeA,
                   NotaDebitoMipymeA, NotaCreditoMipymeA, FacturaCreditoMipymeB, NotaDebitoMipymeB};
    EightResponsableInscriptoTypes();
    EightMoreResponsableInscriptoTypes();
    ResponsableInscriptoHalvesDisjoint();
    var sixteen := abt + mipyme;
    assert |sixteen| == 16;
    assert AllowedInvoiceTypes(ResponsableInscripto) == sixteen + {NotaCreditoMipymeB};
  }

  lemma ResponsableInscriptoHalvesDisjoint()
    ensures {FacturaA, NotaDebitoA, NotaCreditoA, ReciboA, FacturaB, NotaDebitoB, NotaCreditoB, ReciboB}
         !! {FacturaT, NotaDebitoT, NotaCreditoT, FacturaCreditoMipymeA,
             NotaDebitoMipymeA, NotaCreditoMipymeA, FacturaCreditoMipymeB, NotaDebitoMipymeB}
    ensures NotaCreditoMipymeB !in {FacturaA, NotaDebitoA, NotaCreditoA, ReciboA, FacturaB, NotaDebitoB, NotaCreditoB, ReciboB}
                                 + {FacturaT, NotaDebitoT, NotaCreditoT, FacturaCreditoMipymeA,
                                    NotaDebitoMipymeA, NotaCreditoMipymeA, FacturaCreditoMipymeB, NotaDebitoMipymeB}
  {
  }

  lemma EightResponsableInscriptoTypes()
    ensures |{FacturaA, NotaDebitoA, NotaCreditoA, ReciboA, FacturaB, NotaDebitoB, NotaCreditoB, ReciboB}| == 8
  {
  }

  lemma EightMoreResponsableInscriptoTypes()
    ensures |{FacturaT, NotaDebitoT, NotaCreditoT, FacturaCreditoMipymeA,
              NotaDebitoMipymeA, NotaCreditoMipymeA, FacturaCreditoMipymeB, NotaDebitoMipymeB}| == 8
  {
  }

  /** Each invoice type is valid for exactly one issuer type. */
  lemma ExactlyOneIssuer(t: InvoiceType)
    ensures ValidateInvoiceTypeForIssuer(t, Monotributo) != ValidateInvoiceTypeForIssuer(t, ResponsableInscripto)
  {
    AllowedSetsDisjoint();
    AllowedSetsCover(t);
  }

  datatype PuntoVenta = PuntoVenta(number: string)

  /** Why `PuntoVenta(number=v)` refuses: the exact-length field bounds first,
      then the validator's digit test. */
  datatype PuntoVentaError = StringTooShort | StringTooLong | NotOnlyNumbers

  const PuntoVentaWidth: nat := 5

  /** Constructing `PuntoVenta(number=v)`: exactly five characters, all
      digits (the validator's own `zfill(5)` is then the identity). */
  function ValidatePuntoVenta(v: string): (r: Result<PuntoVenta, PuntoVentaError>)
    ensures r.Ok? <==> |v| == PuntoVentaWidth && AllDigits(v)
    ensures r.Ok? ==> r.value.number == v
  {
    if |v| < PuntoVentaWidth then Err(StringTooShort)
    else if |v| > PuntoVentaWidth then Err(StringTooLong)
    else if !IsDigitString(v) then Err(NotOnlyNumbers)
    else Ok(PuntoVenta(ZFill(v, PuntoVentaWidth)))
  }

  /** `PuntoVenta.from_string`: `zfill(5)` and then validate. A digit string
      of up to five characters is accepted and padded with leading zeros;
      anything else (a sign, any other non-digit, a sixth character) is refused. */
  function PuntoVentaFromString(value: string): (r: Result<PuntoVenta, PuntoVentaError>)
    ensures r.Ok? <==> |value| <= PuntoVentaWidth && AllDigits(value)
    ensures r.Ok? ==> r.value.number == Zeros(PuntoVentaWidth - |value|) + value
    ensures r.Ok? ==> |r.value.number| == PuntoVentaWidth && AllDigits(r.value.number)
  {
    var padded := ZFill(value, PuntoVentaWidth);
    assert |value| < PuntoVentaWidth && !AllDigits(value) ==> !AllDigits(padded) by {
      if |value| < PuntoVentaWidth && !AllDigits(value) {
        var i :| 0 <= i < |value| && !IsDigit(value[i]);
        if value[0] == '+' || value[0] == '-' {
          assert !IsDigit(padded[0]);
        } else {
          assert padded[PuntoVentaWidth - |value| + i] == value[i];
        }
      }
    }
    ValidatePuntoVenta(padded)
  }

  /** Padding keeps the number: the digits denote the same value. */
  lemma PuntoVentaValue(value: string)
    requires PuntoVentaFromString(value).Ok?
    ensures DigitsValue(PuntoVentaFromString(value).value.number) == DigitsValue(value)
  {
    ZerosPrefixValue(PuntoVentaWidth - |value|, value);
  }

  lemma PuntoVentaExamples()
    ensures PuntoVentaFromString("7") == Ok(PuntoVenta("00007"))
    ensures PuntoVentaFromString("") == Ok(PuntoVenta("00000"))
    ensures PuntoVentaFromString("123456").Err?
    ensures PuntoVentaFromString("-7").Err?
  {
    assert AllDigits("7");
    assert Zeros(4) + "7" == "00007";
    assert Zeros(5) + "" == "00000";
    assert !IsDigit("-7"[0]);
  }

  datatype InvoiceTypeInfo = InvoiceTypeInfo(
    code: InvoiceType, description: string, issuerType: IssuerType, puntoVenta: PuntoVenta)

  /** `create_invoice_type_info`: `None` when the type is not allowed for the
      issuer or the punto de venta is refused; otherwise the table's
      description and the padded punto de venta. */
  function CreateInvoiceTypeInfo(code: InvoiceType, issuerType: IssuerType, puntoVenta: string)
    : (r: Option<InvoiceTypeInfo>)
    ensures r.Some? <==>
      ValidateInvoiceTypeForIssuer(code, issuerType) && PuntoVentaFromString(puntoVenta).Ok?
    ensures r.Some? ==>
      && r.value.code == code && r.value.issuerType == issuerType
      && r.value.description == InvoiceDescription(code)
      && r.value.puntoVenta.number == Zeros(PuntoVentaWidth - |puntoVenta|) + puntoVenta
  {
    if ValidateInvoiceTypeForIssuer(code, issuerType) then
      match PuntoVentaFromString(puntoVenta)
      case Ok(pv) => Some(InvoiceTypeInfo(code, InvoiceDescription(code), issuerType, pv))
      case Err(_) => None
    else None
  }
}
