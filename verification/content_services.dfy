/** One service line of an invoice: the service code, the unit price, the
    discount percentage, the IVA rate, and the amounts derived from them. */
module ContentServices {
  import opened Common
  import opened Decimals
  import opened InvoiceTypes

  datatype IvaRate = NoGravado | Exento | Cero | DosCinco | Cinco | DiezCinco | Veintiuno | Veintisiete

  /** The portal's numeric code of each rate (the enum value). */
  function IvaRateCode(r: IvaRate): nat {
    match r
    case NoGravado => 1
    case Exento => 2
    case Cero => 3
    case DosCinco => 9
    case Cinco => 8
    case DiezCinco => 4
    case Veintiuno => 5
    case Veintisiete => 6
  }

  datatype RateInfo = RateInfo(description: string, rate: real)

  /** `IVA_RATE_INFO`: description and percentage of each rate. */
  const IvaRateInfo: map<IvaRate, RateInfo> := map[
    NoGravado := RateInfo("No gravado", 0.0),
    Exento := RateInfo("Exento", 0.0),
    Cero := RateInfo("0%", 0.0),
    DosCinco := RateInfo("2,5%", 2.5),
    Cinco := RateInfo("5%", 5.0),
    DiezCinco := RateInfo("10,5%", 10.5),
    Veintiuno := RateInfo("21%", 21.0),
    Veintisiete := RateInfo("27%", 27.0)]

  /** Every rate has an entry; percentages lie between 0 and 27, and the
      three rates without tax (no gravado, exento, 0%) are 0. */
  lemma IvaRateInfoDefined(r: IvaRate)
    ensures r in IvaRateInfo
    ensures 0.0 <= IvaRateInfo[r].rate <= 27.0
    ensures IvaRateInfo[r].rate == 0.0 <==> r in {NoGravado, Exento, Cero}
  {
  }

  /** Distinct rates carry distinct codes. */
  lemma IvaRateCodeInjective(r: IvaRate, s: IvaRate)
    ensures IvaRateCode(r) == IvaRateCode(s) ==> r == s
  {
  }

  /** The percentage of a rate, from the table. */
  function RatePercent(r: IvaRate): (p: real)
    ensures 0.0 <= p <= 27.0
    ensures p == 0.0 <==> r in {NoGravado, Exento, Cero}
  {
    IvaRateInfoDefined(r);
    IvaRateInfo[r].rate
  }

  datatype ServiceCode = ServiceCode(code: string)

  const ServiceCodeWidth: nat := 4
  const ServiceCodeDigitsMessage := "Service code must contain only numbers"
  const ServiceCodeLengthMessage := "Service code must be up to 4 digits long"

  /** `ServiceCode.from_string`: strip, demand digits only (at least one)
      and at most four of them, then pad with zeros to four. */
  function ServiceCodeFromString(value: string): (r: Result<ServiceCode, string>)
    ensures r.Ok? <==> IsDigitString(Strip(value)) && |Strip(value)| <= ServiceCodeWidth
    ensures r.Ok? ==> r.value.code == Zeros(ServiceCodeWidth - |Strip(value)|) + Strip(value)
    ensures r.Ok? ==> |r.value.code| == ServiceCodeWidth && AllDigits(r.value.code)
    ensures r.Err? ==> r.error == (if IsDigitString(Strip(value)) then ServiceCodeLengthMessage
                                   else ServiceCodeDigitsMessage)
  {
    var cleaned := Strip(value);
    if !IsDigitString(cleaned) then Err(ServiceCodeDigitsMessage)
    else if |cleaned| > ServiceCodeWidth then Err(ServiceCodeLengthMessage)
    else
      ZFillDigits(cleaned, ServiceCodeWidth);
      Ok(ServiceCode(ZFill(cleaned, ServiceCodeWidth)))
  }

  /** Padding keeps the number the code denotes. */
  lemma ServiceCodeValue(value: string)
    requires ServiceCodeFromString(value).Ok?
    ensures DigitsValue(ServiceCodeFromString(value).value.code) == DigitsValue(Strip(value))
  {
    ZerosPrefixValue(ServiceCodeWidth - |Strip(value)|, Strip(value));
  }

  /** Two digits are padded with two zeros: "12" gives "0012". */
  lemma ServiceCodeTwoDigits(a: char, b: char)
    requires IsDigit(a) && IsDigit(b)
    ensures ServiceCodeFromString([a, b]) == Ok(ServiceCode(['0', '0', a, b]))
  {
    StripUnpadded([a, b]);
    assert Zeros(2) + [a, b] == ['0', '0', a, b];
  }

  /** Why an amount is refused: the field's bounds (checked first), then the
      validator's two tests on `str(v)`. */
  datatype AmountError = BelowMinimum | AboveMaximum | TooManyDigits | TooManyPlaces

  datatype UnitPrice = UnitPrice(amount: Dec)

  const UnitPriceMaxDigits: nat := 19
  const InvalidUnitPriceMessage := "Invalid unit price format"

  /** The validator's tests on a rendering of the amount: at most
      `maxDigits` characters once points are removed, at most two after the
      last point. */
  function CheckRendering(text: string, maxDigits: nat): (r: Option<AmountError>)
    ensures r.None? <==> |RemoveDots(text)| <= maxDigits && PlacesOf(text) <= 2
    ensures r.Some? ==> r.value in {TooManyDigits, TooManyPlaces}
  {
    if |RemoveDots(text)| > maxDigits then Some(TooManyDigits)
    else if PlacesOf(text) > 2 then Some(TooManyPlaces)
    else None
  }

  /** Constructing `UnitPrice(amount=v)` with the tests read off the
      positional rendering of `v`. */
  function ValidateUnitPrice(v: Dec): (r: Result<UnitPrice, AmountError>)
    ensures r.Ok? <==> Value(v) >= 0.0 && TotalDigits(v) <= UnitPriceMaxDigits && v.scale <= 2
    ensures r.Ok? ==> r.value.amount == v
  {
    PlainStrMeasures(v);
    if Value(v) < 0.0 then Err(BelowMinimum)
    else match CheckRendering(PlainStr(v), UnitPriceMaxDigits)
      case Some(e) => Err(e)
      case None => Ok(UnitPrice(v))
  }

  /** The same constructor as written: the tests read `str(v)`, which is
      scientific for magnitudes below 1E-6. */
  function ValidateUnitPriceAsWritten(v: Dec): (r: Result<UnitPrice, AmountError>)
    ensures !Scientific(v) ==> r == ValidateUnitPrice(v)
  {
    if Value(v) < 0.0 then Err(BelowMinimum)
    else match CheckRendering(PyStr(v), UnitPriceMaxDigits)
      case Some(e) => Err(e)
      case None => Ok(UnitPrice(v))
  }

  /** `UnitPrice.from_string`: strip, read as a decimal, construct; every
      failure becomes the one format message. */
  function UnitPriceFromString(value: string): (r: Result<UnitPrice, string>)
    ensures r.Ok? <==> Parse(Strip(value)).Some? && ValidateUnitPrice(Parse(Strip(value)).value).Ok?
    ensures r.Ok? ==> r.value.amount == Parse(Strip(value)).value
    ensures r.Ok? ==> Value(r.value.amount) >= 0.0 && r.value.amount.scale <= 2
                      && TotalDigits(r.value.amount) <= UnitPriceMaxDigits
    ensures r.Err? ==> r.error == InvalidUnitPriceMessage
  {
    match Parse(Strip(value))
    case None => Err(InvalidUnitPriceMessage)
    case Some(d) =>
      match ValidateUnitPrice(d)
      case Ok(p) => Ok(p)
      case Err(_) => Err(InvalidUnitPriceMessage)
  }

  /** `UnitPrice.from_string` as written. */
  function UnitPriceFromStringAsWritten(value: string): (r: Result<UnitPrice, string>)
    ensures r.Err? ==> r.error == InvalidUnitPriceMessage
  {
    match Parse(Strip(value))
    case None => Err(InvalidUnitPriceMessage)
    case Some(d) =>
      match ValidateUnitPriceAsWritten(d)
      case Ok(p) => Ok(p)
      case Err(_) => Err(InvalidUnitPriceMessage)
  }

  /** Positional text survives `strip()` and reads back as the decimal. */
  lemma PlainTextParses(d: Dec)
    ensures Strip(PlainStr(d)) != [] && Parse(Strip(PlainStr(d))) == Some(d)
  {
    PlainStrStripped(d);
    ParsePlainStr(d);
  }

  /** Every admissible amount, written positionally, is read back as itself. */
  lemma UnitPriceRoundTrip(d: Dec)
    requires Value(d) >= 0.0 && d.scale <= 2 && TotalDigits(d) <= UnitPriceMaxDigits
    ensures UnitPriceFromString(PlainStr(d)) == Ok(UnitPrice(d))
  {
    PlainTextParses(d);
    var v := ValidateUnitPrice(d);
    assert v.Ok? && v.value == UnitPrice(d);
  }

  /** A positionally written amount is accepted exactly when the amount
      itself is admissible. */
  lemma UnitPriceFromPlainStr(d: Dec)
    ensures UnitPriceFromString(PlainStr(d)).Ok? <==> ValidateUnitPrice(d).Ok?
  {
    PlainStrStripped(d);
    ParsePlainStr(d);
  }

  /** Three places are one too many: "100.999" is refused. */
  lemma UnitPriceThreePlacesRefused()
    ensures UnitPriceFromString("100.999") == Err(InvalidUnitPriceMessage)
  {
    var d := Dec(false, 100999, 3);
    ThreePlacesText(d);
    UnitPriceFromPlainStr(d);
    assert !ValidateUnitPrice(d).Ok?;
  }

  lemma ThreePlacesText(d: Dec)
    requires d == Dec(false, 100999, 3)
    ensures PlainStr(d) == "100.999"
  {
    assert CoeffDigits(d) == "100999";
  }

  /** 1E-7, read from "0.0000001": seven places, printed by `str()` in
      scientific notation. */
  const Tiny := Dec(false, 1, 7)

  lemma TinyPlain()
    ensures PlainStr(Tiny) == "0.0000001"
  {
    assert CoeffDigits(Tiny) == "1";
    assert Zeros(6) == "000000";
  }

  lemma TinyScientific()
    ensures Scientific(Tiny) && PyStr(Tiny) == "1E-7"
    ensures |RemoveDots(PyStr(Tiny))| == 4 && PlacesOf(PyStr(Tiny)) == 0
  {
    assert CoeffDigits(Tiny) == "1";
    assert NatToString(7) == "7";
    assert '.' !in PyStr(Tiny);
    RemoveDotsNoDot(PyStr(Tiny));
  }

  /** Both validators as written let the seven-place amount through. */
  lemma TinyAsWrittenValid()
    ensures ValidateUnitPriceAsWritten(Tiny) == Ok(UnitPrice(Tiny))
    ensures ValidateDiscountAsWritten(Tiny) == Ok(DiscountPercentage(Tiny))
  {
    TinyScientific();
    assert 0.0 <= Value(Tiny) <= 100.0;
  }

  /** As written, "0.0000001" passes as a unit price (its `str()` has no
      point, so no places are counted); the intended check refuses it. */
  lemma UnitPriceAsWrittenSevenPlaces()
    ensures UnitPriceFromStringAsWritten(PlainStr(Tiny)) == Ok(UnitPrice(Tiny))
  {
    TinyAsWrittenValid();
    PlainStrStripped(Tiny);
    ParsePlainStr(Tiny);
  }

  lemma UnitPriceSevenPlacesRefused()
    ensures UnitPriceFromString(PlainStr(Tiny)).Err?
  {
    UnitPriceFromPlainStr(Tiny);
  }

  datatype DiscountPercentage = DiscountPercentage(percentage: Dec)

  const DiscountMaxDigits: nat := 6
  const InvalidDiscountMessage := "Invalid discount percentage format"

  /** Constructing `DiscountPercentage(percentage=v)`, the tests read off the
      positional rendering. */
  function ValidateDiscount(v: Dec): (r: Result<DiscountPercentage, AmountError>)
    ensures r.Ok? <==> 0.0 <= Value(v) <= 100.0 && TotalDigits(v) <= DiscountMaxDigits && v.scale <= 2
    ensures r.Ok? ==> r.value.percentage == v
  {
    PlainStrMeasures(v);
    if Value(v) < 0.0 then Err(BelowMinimum)
    else if Value(v) > 100.0 then Err(AboveMaximum)
    else match CheckRendering(PlainStr(v), DiscountMaxDigits)
      case Some(e) => Err(e)
      case None => Ok(DiscountPercentage(v))
  }

  /** The same constructor as written, reading `str(v)`. */
  function ValidateDiscountAsWritten(v: Dec): (r: Result<DiscountPercentage, AmountError>)
    ensures !Scientific(v) ==> r == ValidateDiscount(v)
  {
    if Value(v) < 0.0 then Err(BelowMinimum)
    else if Value(v) > 100.0 then Err(AboveMaximum)
    else match CheckRendering(PyStr(v), DiscountMaxDigits)
      case Some(e) => Err(e)
      case None => Ok(DiscountPercentage(v))
  }

  const ZeroDec := Dec(false, 0, 0)

  /** The blank discount denotes no discount at all. */
  lemma ZeroDecValue()
    ensures Value(ZeroDec) == 0.0 && ZeroDec.scale == 0 && TotalDigits(ZeroDec) == 1
  {
    assert CoeffDigits(ZeroDec) == "0";
  }

  /** `DiscountPercentage.from_string`: blank text means 0; otherwise read
      and construct; every failure becomes the one format message. */
  function DiscountFromString(value: string): (r: Result<DiscountPercentage, string>)
    ensures Strip(value) == [] ==> r == Ok(DiscountPercentage(ZeroDec))
    ensures Strip(value) != [] ==>
      (r.Ok? <==> Parse(Strip(value)).Some? && ValidateDiscount(Parse(Strip(value)).value).Ok?)
    ensures Strip(value) != [] && r.Ok? ==> r.value.percentage == Parse(Strip(value)).value
    ensures r.Ok? ==> 0.0 <= Value(r.value.percentage) <= 100.0 && r.value.percentage.scale <= 2
    ensures r.Err? ==> r.error == InvalidDiscountMessage
  {
    var cleaned := Strip(value);
    if cleaned == [] then ZeroDecValue(); Ok(DiscountPercentage(ZeroDec))
    else DiscountFromText(cleaned)
  }

  /** The non-blank branch of `DiscountPercentage.from_string`. */
  function DiscountFromText(cleaned: string): (r: Result<DiscountPercentage, string>)
    ensures r.Ok? <==> Parse(cleaned).Some? && ValidateDiscount(Parse(cleaned).value).Ok?
    ensures r.Ok? ==> r.value.percentage == Parse(cleaned).value
    ensures r.Ok? ==> 0.0 <= Value(r.value.percentage) <= 100.0 && r.value.percentage.scale <= 2
    ensures r.Err? ==> r.error == InvalidDiscountMessage
  {
    match Parse(cleaned)
    case None => Err(InvalidDiscountMessage)
    case Some(d) =>
      match ValidateDiscount(d)
      case Ok(p) => Ok(p)
      case Err(_) => Err(InvalidDiscountMessage)
  }

  /** `DiscountPercentage.from_string` as written. */
  function DiscountFromStringAsWritten(value: string): (r: Result<DiscountPercentage, string>)
    ensures r.Err? ==> r.error == InvalidDiscountMessage
  {
    var cleaned := Strip(value);
    if cleaned == [] then Ok(DiscountPercentage(ZeroDec))
    else match Parse(cleaned)
      case None => Err(InvalidDiscountMessage)
      case Some(d) =>
        match ValidateDiscountAsWritten(d)
        case Ok(p) => Ok(p)
        case Err(_) => Err(InvalidDiscountMessage)
  }

  /** Every admissible percentage, written positionally, is read back as itself. */
  lemma DiscountRoundTrip(d: Dec)
    requires 0.0 <= Value(d) <= 100.0 && d.scale <= 2 && TotalDigits(d) <= DiscountMaxDigits
    ensures DiscountFromString(PlainStr(d)) == Ok(DiscountPercentage(d))
  {
    PlainTextParses(d);
    var v := ValidateDiscount(d);
    assert v.Ok? && v.value == DiscountPercentage(d);
  }

  /** As written, "0.0000001" passes as a discount percentage; the
      intended check refuses it. */
  lemma DiscountAsWrittenSevenPlaces()
    ensures DiscountFromStringAsWritten(PlainStr(Tiny)) == Ok(DiscountPercentage(Tiny))
  {
    TinyAsWrittenValid();
    PlainStrStripped(Tiny);
    ParsePlainStr(Tiny);
    assert PlainStr(Tiny) != [];
  }

  lemma DiscountSevenPlacesRefused()
    ensures DiscountFromString(PlainStr(Tiny)).Err?
  {
    PlainStrStripped(Tiny);
    ParsePlainStr(Tiny);
    assert PlainStr(Tiny) != [];
  }

  datatype ServiceInvoiceLine = ServiceInvoiceLine(
    issuerType: IssuerType,
    serviceCode: ServiceCode,
    unitPrice: UnitPrice,
    discount: DiscountPercentage,
    ivaRate: Option<IvaRate>)

  const IvaRequiredMessage := "iva rate is required for Responsable Inscripto"
  const IvaForbiddenMessage := "iva rate should not be specified for Monotributo"

  /** The `after` validator of `ServiceInvoiceLine`: a Responsable Inscripto
      line needs an IVA rate and a Monotributo line must not have one. */
  function ValidateServiceInvoiceLine(issuerType: IssuerType, code: ServiceCode, price: UnitPrice,
                                      discount: DiscountPercentage, ivaRate: Option<IvaRate>)
    : (r: Result<ServiceInvoiceLine, string>)
    ensures r.Ok? <==> (issuerType == ResponsableInscripto <==> ivaRate.Some?)
    ensures r.Ok? ==> r.value == ServiceInvoiceLine(issuerType, code, price, discount, ivaRate)
    ensures r.Err? ==> r.error == (if issuerType == ResponsableInscripto then IvaRequiredMessage
                                   else IvaForbiddenMessage)
  {
    match issuerType
    case ResponsableInscripto =>
      if ivaRate.None? then Err(IvaRequiredMessage)
      else Ok(ServiceInvoiceLine(issuerType, code, price, discount, ivaRate))
    case Monotributo =>
      if ivaRate.Some? then Err(IvaForbiddenMessage)
      else Ok(ServiceInvoiceLine(issuerType, code, price, discount, ivaRate))
  }

  /** Amounts as the field bounds admit them. */
  predicate AmountsInRange(line: ServiceInvoiceLine) {
    Value(line.unitPrice.amount) >= 0.0 && 0.0 <= Value(line.discount.percentage) <= 100.0
  }

  /** `discounted_price`: within the field bounds it lies between 0 and the
      unit price, and a full discount leaves nothing. */
  function DiscountedPrice(line: ServiceInvoiceLine): (r: real)
    ensures AmountsInRange(line) ==> 0.0 <= r <= Value(line.unitPrice.amount)
    ensures Value(line.discount.percentage) == 100.0 ==> r == 0.0
  {
    var unit := Value(line.unitPrice.amount);
    var pct := Value(line.discount.percentage);
    if pct == 0.0 then unit
    else
      var m := (100.0 - pct) / 100.0;
      if AmountsInRange(line) then ProductBounds(unit, m, 1.0); unit * m else unit * m
  }

  /** `iva_amount`: within the field bounds it is at least 0 and at most
      27% (the highest rate) of the discounted price. */
  function IvaAmount(line: ServiceInvoiceLine): (r: real)
    ensures AmountsInRange(line) ==> 0.0 <= r <= DiscountedPrice(line) * (27.0 / 100.0)
  {
    if line.issuerType == Monotributo || line.ivaRate.None? then 0.0
    else
      var a := DiscountedPrice(line);
      var rate := RatePercent(line.ivaRate.value);
      if AmountsInRange(line) then RateBounds(a, rate); a * (rate / 100.0) else a * (rate / 100.0)
  }

  lemma RateBounds(a: real, rate: real)
    requires 0.0 <= a && 0.0 <= rate <= 27.0
    ensures 0.0 <= a * (rate / 100.0) <= a * (27.0 / 100.0)
  {
    ProductBounds(a, rate / 100.0, 27.0 / 100.0);
  }

  /** `total_price`: within the field bounds it is at least the discounted
      price and at most 127% of it. */
  function TotalPrice(line: ServiceInvoiceLine): (r: real)
    ensures AmountsInRange(line) ==> DiscountedPrice(line) <= r <= DiscountedPrice(line) * (127.0 / 100.0)
  {
    DiscountedPrice(line) + IvaAmount(line)
  }

  /** The discounted price is the unit price scaled by (100 - d)/100 in every
      case (the shortcut for d = 0 changes nothing), and it is the unit price
      when there is no discount. */
  lemma DiscountedPriceProperties(line: ServiceInvoiceLine)
    ensures DiscountedPrice(line)
         == Value(line.unitPrice.amount) * (100.0 - Value(line.discount.percentage)) / 100.0
    ensures Value(line.discount.percentage) == 0.0 ==> DiscountedPrice(line) == Value(line.unitPrice.amount)
  {
  }

  /** No IVA for Monotributo; otherwise the discounted price times the rate
      of the table, which is 0 for no gravado, exento and 0%. */
  lemma IvaAmountProperties(line: ServiceInvoiceLine)
    ensures line.issuerType == Monotributo ==> IvaAmount(line) == 0.0
    ensures line.issuerType == ResponsableInscripto && line.ivaRate.Some? ==>
      IvaAmount(line) == DiscountedPrice(line) * RatePercent(line.ivaRate.value) / 100.0
    ensures line.ivaRate.Some? && line.ivaRate.value in {NoGravado, Exento, Cero} ==> IvaAmount(line) == 0.0
  {
    if line.issuerType != Monotributo && line.ivaRate.Some? {
      var a := DiscountedPrice(line);
      var p := RatePercent(line.ivaRate.value) / 100.0;
      assert IvaAmount(line) == a * p;
    }
  }

  /** A product of a non-negative amount with a factor between 0 and a
      bound lies between 0 and the amount times the bound. */
  lemma ProductBounds(x: real, y: real, bound: real)
    requires 0.0 <= x && 0.0 <= y <= bound
    ensures 0.0 <= x * y <= x * bound
  {
    assert x * (bound - y) >= 0.0;
  }

  /** The total adds the IVA to the discounted price, so it is never below it. */
  lemma TotalPriceAtLeastDiscounted(line: ServiceInvoiceLine)
    requires AmountsInRange(line)
    ensures TotalPrice(line) >= DiscountedPrice(line)
    ensures line.issuerType == Monotributo ==> TotalPrice(line) == DiscountedPrice(line)
  {
    IvaAmountProperties(line);
  }

  /** 100.99 at a 10% discount is 90.891; with 21% IVA the total is 109.97811. */
  lemma AmountsExample()
    ensures
      var line := ServiceInvoiceLine(ResponsableInscripto, ServiceCode("0012"),
        UnitPrice(Dec(false, 10099, 2)), DiscountPercentage(Dec(false, 10, 0)), Some(Veintiuno));
      DiscountedPrice(line) == 90.891 && TotalPrice(line) == 109.97811
  {
    assert Pow10(2) == 100;
    assert Pow10(0) == 1;
  }

  /** `create_service_invoice_line`: code, then price, then discount (absent
      means "0"), then the line's own validator; the first refusal is the
      error. */
  function CreateServiceInvoiceLine(issuerType: IssuerType, serviceCode: string, unitPrice: string,
                                    discount: Option<string>, ivaRate: Option<IvaRate>)
    : (r: Result<ServiceInvoiceLine, string>)
    ensures r.Ok? <==>
      && ServiceCodeFromString(serviceCode).Ok?
      && UnitPriceFromString(unitPrice).Ok?
      && DiscountFromString(if discount.Some? then discount.value else "0").Ok?
      && (issuerType == ResponsableInscripto <==> ivaRate.Some?)
    ensures r.Ok? ==>
      && r.value.serviceCode == ServiceCodeFromString(serviceCode).value
      && r.value.unitPrice == UnitPriceFromString(unitPrice).value
      && r.value.discount == DiscountFromString(if discount.Some? then discount.value else "0").value
      && r.value.issuerType == issuerType && r.value.ivaRate == ivaRate
      && AmountsInRange(r.value)
    ensures ServiceCodeFromString(serviceCode).Err? ==> r == Err(ServiceCodeFromString(serviceCode).error)
    ensures ServiceCodeFromString(serviceCode).Ok? && UnitPriceFromString(unitPrice).Err?
      ==> r == Err(InvalidUnitPriceMessage)
  {
    match ServiceCodeFromString(serviceCode)
    case Err(e) => Err(e)
    case Ok(code) =>
      match UnitPriceFromString(unitPrice)
      case Err(e) => Err(e)
      case Ok(price) =>
        match DiscountFromString(if discount.Some? then discount.value else "0")
        case Err(e) => Err(e)
        case Ok(pct) => ValidateServiceInvoiceLine(issuerType, code, price, pct, ivaRate)
  }

  /** The text an absent discount stands for reads as a zero percentage. */
  lemma DefaultDiscount()
    ensures DiscountFromString("0") == Ok(DiscountPercentage(ZeroDec))
  {
    assert PlainStr(ZeroDec) == "0";
    DiscountRoundTrip(ZeroDec);
  }

  /** Without a discount argument the line has a zero discount, so its
      discounted price is the unit price. */
  lemma NoDiscountMeansZero(issuerType: IssuerType, serviceCode: string, unitPrice: string,
                            ivaRate: Option<IvaRate>)
    requires CreateServiceInvoiceLine(issuerType, serviceCode, unitPrice, None, ivaRate).Ok?
    ensures CreateServiceInvoiceLine(issuerType, serviceCode, unitPrice, None, ivaRate).value.discount
         == DiscountPercentage(ZeroDec)
  {
    DefaultDiscount();
  }
}
