/** The checks `select_invoice_type` runs before it touches the page: the
    punto de venta, the issuer and invoice type names, and the issuer rule;
    then the values it sends to the two select menus. */
module SelectInvoiceTypeStep {
  import opened Common
  import opened InvoiceTypes

  /** Why the step gives up before any page interaction. Each becomes the
      ValueError message shown, then the step's `False`. */
  datatype PreludeError =
    | InvalidPuntoVenta(reason: PuntoVentaError)
    | InvalidNames
    | NotAllowed(message: string)

  const InvalidPuntoVentaPrefix := "Invalid punto_venta: "
  const InvalidNamesPrefix := "Invalid issuer_type or invoice_type: "

  function NotAllowedMessage(invoiceType: string, issuerType: string): string {
    "Invoice type " + invoiceType + " is not valid for issuer type " + issuerType
  }

  /** What the step selects once the checks pass. */
  datatype Selection = Selection(
    puntoVenta: PuntoVenta,
    issuerType: IssuerType,
    invoiceType: InvoiceType,
    puntoVentaOption: string,
    invoiceTypeOption: string)

  /** `str(int(number))`: the padded punto de venta without its leading zeros. */
  function PuntoVentaOption(pv: PuntoVenta): (r: string)
    requires AllDigits(pv.number)
    ensures IsDigitString(r) && AllDigits(r) && DigitsValue(r) == DigitsValue(pv.number)
    ensures r[0] == '0' ==> r == "0"
  {
    NatToStringValue(DigitsValue(pv.number));
    NatToString(DigitsValue(pv.number))
  }

  /** The validation prelude (lines 28-51), in the source's order. */
  function ValidateSelection(puntoVenta: string, issuerType: string, invoiceType: string)
    : (r: Result<Selection, PreludeError>)
    ensures PuntoVentaFromString(puntoVenta).Err? <==> r.Err? && r.error.InvalidPuntoVenta?
    ensures r.Err? && r.error.InvalidNames? <==>
      PuntoVentaFromString(puntoVenta).Ok?
      && (IssuerTypeFromName(issuerType).None? || InvoiceTypeFromName(invoiceType).None?)
    ensures r.Ok? <==>
      && PuntoVentaFromString(puntoVenta).Ok?
      && IssuerTypeFromName(issuerType).Some? && InvoiceTypeFromName(invoiceType).Some?
      && ValidateInvoiceTypeForIssuer(InvoiceTypeFromName(invoiceType).value, IssuerTypeFromName(issuerType).value)
    ensures r.Err? && r.error.NotAllowed? ==> r.error.message == NotAllowedMessage(invoiceType, issuerType)
    ensures r.Ok? ==>
      && IssuerTypeName(r.value.issuerType) == issuerType
      && InvoiceTypeName(r.value.invoiceType) == invoiceType
      && r.value.puntoVenta == PuntoVentaFromString(puntoVenta).value
      && AllDigits(puntoVenta) && AllDigits(r.value.puntoVentaOption)
      && DigitsValue(r.value.puntoVentaOption) == DigitsValue(puntoVenta)
      && r.value.invoiceTypeOption == NatToString(InvoiceCode(r.value.invoiceType))
  {
    match PuntoVentaFromString(puntoVenta)
    case Err(e) => Err(InvalidPuntoVenta(e))
    case Ok(pv) =>
      PuntoVentaValue(puntoVenta);
      match (IssuerTypeFromName(issuerType), InvoiceTypeFromName(invoiceType))
      case (Some(issuer), Some(code)) =>
        if !ValidateInvoiceTypeForIssuer(code, issuer) then
          Err(NotAllowed(NotAllowedMessage(invoiceType, issuerType)))
        else
          Ok(Selection(pv, issuer, code, PuntoVentaOption(pv), NatToString(InvoiceCode(code))))
      case _ => Err(InvalidNames)
  }

  /** `select_invoice_type`: `True` only when the checks pass and the page
      interactions (an oracle on what is selected) complete; any failed
      check gives `False` whatever the page would do. */
  function SelectInvoiceType(puntoVenta: string, issuerType: string, invoiceType: string,
                             pageSucceeds: Selection -> bool): (r: bool)
    ensures r <==> ValidateSelection(puntoVenta, issuerType, invoiceType).Ok?
                   && pageSucceeds(ValidateSelection(puntoVenta, issuerType, invoiceType).value)
  {
    match ValidateSelection(puntoVenta, issuerType, invoiceType)
    case Err(_) => false
    case Ok(selection) => pageSucceeds(selection)
  }

  /** An invoice type the issuer may not emit fails before the page is
      touched, with the message naming both. */
  lemma NotAllowedFails(puntoVenta: string, issuerType: string, invoiceType: string,
                        pageSucceeds: Selection -> bool)
    requires PuntoVentaFromString(puntoVenta).Ok?
    requires IssuerTypeFromName(issuerType).Some? && InvoiceTypeFromName(invoiceType).Some?
    requires !ValidateInvoiceTypeForIssuer(InvoiceTypeFromName(invoiceType).value,
                                           IssuerTypeFromName(issuerType).value)
    ensures !SelectInvoiceType(puntoVenta, issuerType, invoiceType, pageSucceeds)
    ensures ValidateSelection(puntoVenta, issuerType, invoiceType)
         == Err(NotAllowed(NotAllowedMessage(invoiceType, issuerType)))
  {
  }

  /** The select option drops the padding: "00007" gives "7", "00000" gives "0". */
  lemma PuntoVentaOptionExamples()
    ensures PuntoVentaOption(PuntoVenta("00007")) == "7"
    ensures PuntoVentaOption(PuntoVenta("00000")) == "0"
  {
    assert "00007" == Zeros(4) + "7";
    ZerosPrefixValue(4, "7");
    assert "00000" == Zeros(5) + "";
    ZerosPrefixValue(5, "");
  }
}
