/** The older copy of the invoice-type tables, kept under `src/models`: the
    same issuer and invoice-type enumerations and tables as `InvoiceTypes`,
    written as Python dictionaries, and a constructor without a punto de
    venta. */
module LegacyInvoiceTypes {
  import opened Common
  import opened InvoiceTypes

  /** `INVOICE_TYPE_DESCRIPTIONS`, as the dictionary it is. */
  const Descriptions: map<InvoiceType, string> := map[
    FacturaC := "Factura C",
    NotaDebitoC := "Nota de Débito C",
    NotaCreditoC := "Nota de Crédito C",
    ReciboC := "Recibo C",
    FacturaCreditoMipymeC := "Factura de Crédito Electrónica MiPyMEs (FCE) C",
    NotaDebitoMipymeC := "Nota de Débito Electrónica MiPyMEs (FCE) C",
    NotaCreditoMipymeC := "Nota de Crédito Electrónica MiPyMEs (FCE) C",
    FacturaA := "Factura A",
    NotaDebitoA := "Nota de Débito A",
    NotaCreditoA := "Nota de Crédito A",
    ReciboA := "Recibo A",
    FacturaB := "Factura B",
    NotaDebitoB := "Nota de Débito B",
    NotaCreditoB := "Nota de Crédito B",
    ReciboB := "Recibo B",
    FacturaT := "Factura T",
    NotaDebitoT := "Nota de Débito T",
    NotaCreditoT := "Nota de Crédito T",
    FacturaCreditoMipymeA := "Factura de Crédito Electrónica MiPyMEs (FCE) A",
    NotaDebitoMipymeA := "Nota de Débito Electrónica MiPyMEs (FCE) A",
    NotaCreditoMipymeA := "Nota de Crédito Electrónica MiPyMEs (FCE) A",
    FacturaCreditoMipymeB := "Factura de Crédito Electrónica MiPyMEs (FCE) B",
    NotaDebitoMipymeB := "Nota de Débito Electrónica MiPyMEs (FCE) B",
    NotaCreditoMipymeB := "Nota de Crédito Electrónica MiPyMEs (FCE) B"]

  /** `ALLOWED_INVOICE_TYPES`, as the dictionary it is. */
  const Allowed: map<IssuerType, set<InvoiceType>> := map[
    Monotributo := {
      FacturaC, NotaDebitoC, NotaCreditoC, ReciboC,
      FacturaCreditoMipymeC, NotaDebitoMipymeC, NotaCreditoMipymeC},
    ResponsableInscripto := {
      FacturaA, NotaDebitoA, NotaCreditoA, ReciboA,
      FacturaB, NotaDebitoB, NotaCreditoB, ReciboB,
      FacturaT, NotaDebitoT, NotaCreditoT,
      FacturaCreditoMipymeA, NotaDebitoMipymeA, NotaCreditoMipymeA,
      FacturaCreditoMipymeB, NotaDebitoMipymeB, NotaCreditoMipymeB}]

  /** Every invoice type has a description, and it is the one the current
      table gives. */
  lemma DescriptionsAgree(t: InvoiceType)
    ensures t in Descriptions && Descriptions[t] == InvoiceDescription(t)
  {
    match t
    case FacturaC | NotaDebitoC | NotaCreditoC
       | ReciboC | FacturaCreditoMipymeC | NotaDebitoMipymeC =>
      DescriptionsAgreePart1(t);
    case NotaCreditoMipymeC | FacturaA | NotaDebitoA
       | NotaCreditoA | ReciboA | FacturaB =>
      DescriptionsAgreePart2(t);
    case NotaDebitoB | NotaCreditoB | ReciboB
       | FacturaT | NotaDebitoT | NotaCreditoT =>
      DescriptionsAgreePart3(t);
    case FacturaCreditoMipymeA | NotaDebitoMipymeA | NotaCreditoMipymeA
       | FacturaCreditoMipymeB | NotaDebitoMipymeB | NotaCreditoMipymeB =>
      DescriptionsAgreePart4(t);
  }

  /** The same for one stretch of the enumeration; the four stretches
      together cover every invoice type. */
  lemma DescriptionsAgreePart1(t: InvoiceType)
    requires t.FacturaC? || t.NotaDebitoC? || t.NotaCreditoC?
          || t.ReciboC? || t.FacturaCreditoMipymeC? || t.NotaDebitoMipymeC?
    ensures t in Descriptions && Descriptions[t] == InvoiceDescription(t)
  {
    match t
    case FacturaC =>
    case NotaDebitoC =>
    case NotaCreditoC =>
    case ReciboC =>
    case FacturaCreditoMipymeC =>
    case NotaDebitoMipymeC =>
  }

  lemma DescriptionsAgreePart2(t: InvoiceType)
    requires t.NotaCreditoMipymeC? || t.FacturaA? || t.NotaDebitoA?
          || t.NotaCreditoA? || t.ReciboA? || t.FacturaB?
    ensures t in Descriptions && Descriptions[t] == InvoiceDescription(t)
  {
    match t
    case NotaCreditoMipymeC =>
    case FacturaA =>
    case NotaDebitoA =>
    case NotaCreditoA =>
    case ReciboA =>
    case FacturaB =>
  }

  lemma DescriptionsAgreePart3(t: InvoiceType)
    requires t.NotaDebitoB? || t.NotaCreditoB? || t.ReciboB?
          || t.FacturaT? || t.NotaDebitoT? || t.NotaCreditoT?
    ensures t in Descriptions && Descriptions[t] == InvoiceDescription(t)
  {
    match t
    case NotaDebitoB =>
    case NotaCreditoB =>
    case ReciboB =>
    case FacturaT =>
    case NotaDebitoT =>
    case NotaCreditoT =>
  }

  lemma DescriptionsAgreePart4(t: InvoiceType)
    requires t.FacturaCreditoMipymeA? || t.NotaDebitoMipymeA? || t.NotaCreditoMipymeA?
          || t.FacturaCreditoMipymeB? || t.NotaDebitoMipymeB? || t.NotaCreditoMipymeB?
    ensures t in Descriptions && Descriptions[t] == InvoiceDescription(t)
  {
    match t
    case FacturaCreditoMipymeA =>
    case NotaDebitoMipymeA =>
    case NotaCreditoMipymeA =>
    case FacturaCreditoMipymeB =>
    case NotaDebitoMipymeB =>
    case NotaCreditoMipymeB =>
  }

  /** Both issuer types have an entry, and it is the current table's set. */
  lemma AllowedAgrees(i: IssuerType)
    ensures i in Allowed && Allowed[i] == AllowedInvoiceTypes(i)
  {
  }

  /** `validate_invoice_type_for_issuer` of the legacy module: membership in
      the issuer's entry; it decides exactly as the current module does. */
  function ValidateForIssuer(t: InvoiceType, i: IssuerType): (r: bool)
    ensures r <==> ValidateInvoiceTypeForIssuer(t, i)
  {
    AllowedAgrees(i);
    t in Allowed[i]
  }

  /** Each invoice type is legal for exactly one of the two issuer types. */
  lemma ExactlyOneIssuerLegacy(t: InvoiceType)
    ensures ValidateForIssuer(t, Monotributo) != ValidateForIssuer(t, ResponsableInscripto)
  {
    ExactlyOneIssuer(t);
  }

  datatype LegacyInvoiceTypeInfo = LegacyInvoiceTypeInfo(
    code: InvoiceType, description: string, issuerType: IssuerType)

  /** `create_invoice_type_info` of the legacy module: `None` exactly when
      the type is not allowed for the issuer; otherwise the code, its table
      description and the issuer. */
  function CreateInvoiceTypeInfo(code: InvoiceType, issuerType: IssuerType)
    : (r: Option<LegacyInvoiceTypeInfo>)
    ensures r.None? <==> !ValidateInvoiceTypeForIssuer(code, issuerType)
    ensures r.Some? ==>
      r.value == LegacyInvoiceTypeInfo(code, InvoiceDescription(code), issuerType)
  {
    if ValidateForIssuer(code, issuerType) then
      DescriptionsAgree(code);
      Some(LegacyInvoiceTypeInfo(code, Descriptions[code], issuerType))
    else None
  }

  /** The legacy constructor agrees with the current one on every valid
      punto de venta: both accept the same pairs and give the same code,
      description and issuer. */
  lemma AgreesWithCurrent(code: InvoiceType, issuerType: IssuerType, puntoVenta: string)
    requires PuntoVentaFromString(puntoVenta).Ok?
    ensures CreateInvoiceTypeInfo(code, issuerType).Some?
        <==> InvoiceTypes.CreateInvoiceTypeInfo(code, issuerType, puntoVenta).Some?
    ensures InvoiceTypes.CreateInvoiceTypeInfo(code, issuerType, puntoVenta).Some? ==>
      var cur := InvoiceTypes.CreateInvoiceTypeInfo(code, issuerType, puntoVenta).value;
      var leg := CreateInvoiceTypeInfo(code, issuerType).value;
      leg.code == cur.code && leg.description == cur.description && leg.issuerType == cur.issuerType
  {
  }
}
