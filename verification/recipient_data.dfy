/** The recipient's IVA (value added tax) condition and which conditions an
    invoice may name, given the issuer type and the invoice type. */
module RecipientData {
  import opened Common
  import opened InvoiceTypes

  datatype IvaCondition =
    | IvaResponsableInscripto
    | ResponsableMonotributo
    | MonotributistaSocial
    | MonotributistaTrabajadorIndependientePromovido
    | IvaSujetoExento
    | ConsumidorFinal
    | SujetoNoCategorizado
    | ProveedorDelExterior
    | ClienteDelExterior
    | IvaLiberadoLey19640
    | IvaNoAlcanzado

  /** The portal's numeric code of each condition (the enum value). */
  function ConditionCode(c: IvaCondition): nat {
    match c
    case IvaResponsableInscripto => 1
    case ResponsableMonotributo => 6
    case MonotributistaSocial => 13
    case MonotributistaTrabajadorIndependientePromovido => 16
    case IvaSujetoExento => 4
    case ConsumidorFinal => 5
    case SujetoNoCategorizado => 7
    case ProveedorDelExterior => 8
    case ClienteDelExterior => 9
    case IvaLiberadoLey19640 => 10
    case IvaNoAlcanzado => 15
  }

  /** Distinct conditions carry distinct codes. */
  lemma ConditionCodeInjective(c: IvaCondition, d: IvaCondition)
    ensures ConditionCode(c) == ConditionCode(d) ==> c == d
  {
  }

  /** The conditions `validate_condition_for_issuer` admits: for a
      Responsable Inscripto issuer it depends on whether the invoice is a
      Factura A; a Monotributo issuer may name any condition. */
  function ValidConditions(issuerType: IssuerType, invoiceType: InvoiceType): set<IvaCondition> {
    if issuerType == ResponsableInscripto then
      if invoiceType == FacturaA then
        {IvaResponsableInscripto, ResponsableMonotributo, MonotributistaSocial,
         MonotributistaTrabajadorIndependientePromovido}
      else
        {IvaSujetoExento, ConsumidorFinal, SujetoNoCategorizado, ProveedorDelExterior,
         ClienteDelExterior, IvaLiberadoLey19640, IvaNoAlcanzado}
    else
      {IvaResponsableInscripto, IvaSujetoExento, ConsumidorFinal, ResponsableMonotributo,
       SujetoNoCategorizado, ProveedorDelExterior, ClienteDelExterior, IvaLiberadoLey19640,
       MonotributistaSocial, IvaNoAlcanzado, MonotributistaTrabajadorIndependientePromovido}
  }

  /** The admitted conditions by their codes: {1, 6, 13, 16} for a Factura A
      of a Responsable Inscripto, {4, 5, 7, 8, 9, 10, 15} for its other
      invoice types, and every condition for a Monotributo issuer. */
  lemma ValidConditionCodes(c: IvaCondition, issuerType: IssuerType, invoiceType: InvoiceType)
    ensures c in ValidConditions(issuerType, invoiceType) <==>
      if issuerType == Monotributo then true
      else if invoiceType == FacturaA then ConditionCode(c) in {1, 6, 13, 16}
      else ConditionCode(c) in {4, 5, 7, 8, 9, 10, 15}
  {
  }

  /** For a Responsable Inscripto issuer every condition is legal for
      exactly one of "Factura A" and "any other invoice type". */
  lemma ResponsableInscriptoSplit(c: IvaCondition, other: InvoiceType)
    requires other != FacturaA
    ensures (c in ValidConditions(ResponsableInscripto, FacturaA))
        != (c in ValidConditions(ResponsableInscripto, other))
  {
  }

  /** A Monotributo issuer may name any condition on any invoice type. */
  lemma MonotributoAcceptsAll(c: IvaCondition, invoiceType: InvoiceType)
    ensures c in ValidConditions(Monotributo, invoiceType)
  {
  }

  datatype IvaConditionInfo = IvaConditionInfo(
    condition: IvaCondition, issuerType: IssuerType, invoiceType: InvoiceType)

  /** The text of the raised error: the condition's number and the two enum
      member names. */
  function InvalidConditionMessage(c: IvaCondition, issuerType: IssuerType, invoiceType: InvoiceType): string {
    "Invalid IVA condition " + NatToString(ConditionCode(c)) + " for issuer type "
      + IssuerTypeName(issuerType) + " and invoice type " + InvoiceTypeName(invoiceType)
  }

  /** `create_iva_condition_info`: the model with its `after` validator. It
      succeeds exactly when the condition is admitted, and then holds the
      three inputs unchanged; otherwise the error names the issuer type and
      the invoice type. */
  function CreateIvaConditionInfo(c: IvaCondition, issuerType: IssuerType, invoiceType: InvoiceType)
    : (r: Result<IvaConditionInfo, string>)
    ensures r.Ok? <==> c in ValidConditions(issuerType, invoiceType)
    ensures r.Ok? ==> r.value == IvaConditionInfo(c, issuerType, invoiceType)
    ensures r.Err? ==>
      && Contains(r.error, IssuerTypeName(issuerType))
      && Contains(r.error, InvoiceTypeName(invoiceType))
  {
    if c in ValidConditions(issuerType, invoiceType) then
      Ok(IvaConditionInfo(c, issuerType, invoiceType))
    else
      var prefix := "Invalid IVA condition " + NatToString(ConditionCode(c)) + " for issuer type ";
      var middle := " and invoice type ";
      ContainsInfix(prefix, IssuerTypeName(issuerType), middle + InvoiceTypeName(invoiceType));
      ContainsInfix(prefix + IssuerTypeName(issuerType) + middle, InvoiceTypeName(invoiceType), []);
      assert InvalidConditionMessage(c, issuerType, invoiceType)
          == prefix + IssuerTypeName(issuerType) + (middle + InvoiceTypeName(invoiceType));
      assert InvalidConditionMessage(c, issuerType, invoiceType)
          == prefix + IssuerTypeName(issuerType) + middle + InvoiceTypeName(invoiceType) + [];
      Err(InvalidConditionMessage(c, issuerType, invoiceType))
  }

  /** `IVA_CONDITION_DESCRIPTIONS`, as the dictionary it is. */
  const ConditionDescriptions: map<IvaCondition, string> := map[
    IvaResponsableInscripto := "IVA Responsable Inscripto",
    ResponsableMonotributo := "Responsable Monotributo",
    MonotributistaSocial := "Monotributista Social",
    MonotributistaTrabajadorIndependientePromovido := "Monotributista Trabajador Independiente Promovido",
    IvaSujetoExento := "IVA Sujeto Exento",
    ConsumidorFinal := "Consumidor Final",
    SujetoNoCategorizado := "Sujeto No Categorizado",
    ProveedorDelExterior := "Proveedor del Exterior",
    ClienteDelExterior := "Cliente del Exterior",
    IvaLiberadoLey19640 := "IVA Liberado - Ley Nº 19.640",
    IvaNoAlcanzado := "IVA No Alcanzado"]

  /** Every condition has a non-empty description: looking one up never
      raises KeyError. */
  lemma DescriptionDefined(c: IvaCondition)
    ensures c in ConditionDescriptions && ConditionDescriptions[c] != []
  {
  }
}
