/** Issuance data of an invoice: the issuance date in the portal's
    dd/mm/yyyy form, the concept, and the billing period that services
    require. */
module IssuanceData {
  import opened Common

  datatype ConceptType = Productos | Servicios | ProductosYServicios

  function ConceptCode(c: ConceptType): nat {
    match c
    case Productos => 1
    case Servicios => 2
    case ProductosYServicios => 3
  }

  /** A calendar day as `datetime` holds it (the time of day is always
      midnight here, so it is left out). */
  datatype Date = Date(year: nat, month: nat, day: nat)

  predicate IsLeapYear(y: nat) {
    y % 4 == 0 && (y % 100 != 0 || y % 400 == 0)
  }

  function DaysInMonth(y: nat, m: nat): nat
    requires 1 <= m <= 12
  {
    if m == 2 then (if IsLeapYear(y) then 29 else 28)
    else if m == 4 || m == 6 || m == 9 || m == 11 then 30
    else 31
  }

  /** What `datetime(year, month, day)` accepts. */
  predicate ValidDate(d: Date) {
    1 <= d.year <= 9999 && 1 <= d.month <= 12 && 1 <= d.day <= DaysInMonth(d.year, d.month)
  }

  /** Chronological order of days. */
  predicate Before(a: Date, b: Date) {
    a.year < b.year
    || (a.year == b.year && a.month < b.month)
    || (a.year == b.year && a.month == b.month && a.day < b.day)
  }

  lemma BeforeTransitive(a: Date, b: Date, c: Date)
    requires Before(a, b) && Before(b, c)
    ensures Before(a, c)
  {
  }

  const Y2K: Date := Date(2000, 1, 1)

  datatype IssuanceDate = IssuanceDate(date: Date)

  const AfterY2KMessage := "Date must be after year 2000"
  const FormatMessage := "Date must be in dd/mm/yyyy format"

  /** Constructing `IssuanceDate(date=v)`: days before 2000-01-01 are refused. */
  function ValidateIssuanceDate(v: Date): (r: Result<IssuanceDate, string>)
    ensures r.Ok? <==> !Before(v, Y2K)
    ensures ValidDate(v) ==> (r.Ok? <==> v.year >= 2000)
    ensures r.Ok? ==> r.value.date == v
    ensures r.Err? ==> r.error == AfterY2KMessage
  {
    if Before(v, Y2K) then Err(AfterY2KMessage) else Ok(IssuanceDate(v))
  }

  predicate IsNonZeroDigit(c: char) { '1' <= c <= '9' }

  /** The `%d` directive of `strptime`: `3[01]|[12]\d|0[1-9]|[1-9]| [1-9]`,
      which is exactly a non-zero digit, a space and a non-zero digit, or
      two digits from 01 to 31. */
  function DayField(t: string): (r: Option<nat>)
    ensures r.Some? ==> 1 <= r.value <= 31
  {
    if |t| == 1 && IsNonZeroDigit(t[0]) then Some(DigitValue(t[0]))
    else if |t| == 2 && t[0] == ' ' && IsNonZeroDigit(t[1]) then Some(DigitValue(t[1]))
    else if |t| == 2 && AllDigits(t) && 1 <= DigitsValue(t) <= 31 then Some(DigitsValue(t))
    else None
  }

  /** The `%m` directive: `1[0-2]|0[1-9]|[1-9]`. */
  function MonthField(t: string): (r: Option<nat>)
    ensures r.Some? ==> 1 <= r.value <= 12
  {
    if |t| == 1 && IsNonZeroDigit(t[0]) then Some(DigitValue(t[0]))
    else if |t| == 2 && AllDigits(t) && 1 <= DigitsValue(t) <= 12 then Some(DigitsValue(t))
    else None
  }

  /** The `%Y` directive: exactly four digits (nothing may follow them). */
  function YearField(t: string): (r: Option<nat>)
    ensures r.Some? ==> r.value <= 9999
  {
    if |t| == 4 && AllDigits(t) then
      DigitsValueBound(t);
      Some(DigitsValue(t))
    else None
  }

  /** `datetime.strptime(value, "%d/%m/%Y")`: the day up to the first '/',
      the month up to the next, the year after it; `None` where Python
      raises ValueError (no match, data left over, or no such day). */
  function StrptimeDate(s: string): (r: Option<Date>)
    ensures r.Some? ==> ValidDate(r.value)
  {
    match FirstIndexOf(s, '/')
    case None => None
    case Some(i) =>
      var rest := s[i + 1..];
      match FirstIndexOf(rest, '/')
      case None => None
      case Some(j) => AssembleDate(DayField(s[..i]), MonthField(rest[..j]), YearField(rest[j + 1..]))
  }

  /** The `datetime` built from the three matched fields, if that day exists. */
  function AssembleDate(d: Option<nat>, m: Option<nat>, y: Option<nat>): (r: Option<Date>)
    ensures r.Some? ==> ValidDate(r.value)
  {
    if d.Some? && m.Some? && y.Some? && ValidDate(Date(y.value, m.value, d.value)) then
      Some(Date(y.value, m.value, d.value))
    else None
  }

  /** Reading "dd/mm/yyyy" reads the three fields separately. */
  lemma StrptimeParts(dd: string, mm: string, yyyy: string)
    requires '/' !in dd && '/' !in mm
    ensures StrptimeDate(dd + "/" + mm + "/" + yyyy)
         == AssembleDate(DayField(dd), MonthField(mm), YearField(yyyy))
  {
    var s := dd + "/" + mm + "/" + yyyy;
    assert s == dd + "/" + (mm + "/" + yyyy);
    FirstIndexOfConcat(dd, '/', mm + "/" + yyyy);
    var rest := s[|dd| + 1..];
    assert rest == mm + "/" + yyyy;
    FirstIndexOfConcat(mm, '/', yyyy);
    assert s[..|dd|] == dd;
    assert rest[..|mm|] == mm;
    assert rest[|mm| + 1..] == yyyy;
  }

  /** `IssuanceDate.from_string`: every refusal, including a day before
      2000, surfaces as the one format message. */
  function IssuanceDateFromString(value: string): (r: Result<IssuanceDate, string>)
    ensures r.Ok? <==> StrptimeDate(value).Some? && StrptimeDate(value).value.year >= 2000
    ensures r.Ok? ==> r.value.date == StrptimeDate(value).value && ValidDate(r.value.date)
    ensures r.Err? ==> r.error == FormatMessage
  {
    match StrptimeDate(value)
    case None => Err(FormatMessage)
    case Some(d) =>
      match ValidateIssuanceDate(d)
      case Ok(v) => Ok(v)
      case Err(_) => Err(FormatMessage)
  }

  /** Two zero-padded digits, as `%d` and `%m` print. */
  function Pad2(n: nat): (r: string)
    requires n < 100
    ensures |r| == 2 && AllDigits(r) && DigitsValue(r) == n
  {
    var r := [DigitChar(n / 10), DigitChar(n % 10)];
    assert r[..1] == [DigitChar(n / 10)];
    assert r[..1][..0] == [];
    assert DigitsValue(r[..1]) == n / 10;
    assert DigitsValue(r) == (n / 10) * 10 + n % 10;
    r
  }

  /** Four digits, as `%Y` prints a year from 1000 on. */
  function Pad4(n: nat): (r: string)
    requires n < 10000
    ensures |r| == 4 && AllDigits(r) && DigitsValue(r) == n
  {
    var r := Pad2(n / 100) + Pad2(n % 100);
    assert r[..3] == Pad2(n / 100) + Pad2(n % 100)[..1];
    assert r[..2] == Pad2(n / 100);
    assert Pad2(n % 100)[..1] == [Pad2(n % 100)[0]];
    assert DigitsValue(r[..3]) == DigitsValue(r[..2]) * 10 + DigitValue(r[2]);
    r
  }

  /** `format_for_afip`: `strftime("%d/%m/%Y")`, for the dates an
      `IssuanceDate` can hold (real dates from 2000 on). */
  function FormatForAfip(d: IssuanceDate): (r: string)
    requires ValidDate(d.date) && d.date.year >= 2000
    ensures |r| == 10 && r[2] == '/' && r[5] == '/'
  {
    Pad2(d.date.day) + "/" + Pad2(d.date.month) + "/" + Pad4(d.date.year)
  }

  /** Parsing what `format_for_afip` prints gives back the same date. */
  lemma FormatRoundTrip(d: IssuanceDate)
    requires ValidDate(d.date) && d.date.year >= 2000
    ensures IssuanceDateFromString(FormatForAfip(d)) == Ok(d)
  {
    var dd, mm, yyyy := Pad2(d.date.day), Pad2(d.date.month), Pad4(d.date.year);
    StrptimeParts(dd, mm, yyyy);
    assert DayField(dd) == Some(d.date.day);
    assert MonthField(mm) == Some(d.date.month);
  }

  /** A day of the month may be written with one digit or a leading space. */
  lemma ShortFieldsExample(s: string)
    requires s == " 5/3/2024"
    ensures IssuanceDateFromString(s) == Ok(IssuanceDate(Date(2024, 3, 5)))
  {
    var dd, mm, yyyy := s[..2], s[3..4], s[5..];
    assert s == dd + "/" + mm + "/" + yyyy;
    StrptimeParts(dd, mm, yyyy);
    ShortFieldValues(dd, mm, yyyy);
    assert ValidDate(Date(2024, 3, 5));
  }

  lemma ShortFieldValues(dd: string, mm: string, yyyy: string)
    requires dd == " 5" && mm == "3" && yyyy == "2024"
    ensures DayField(dd) == Some(5) && MonthField(mm) == Some(3) && YearField(yyyy) == Some(2024)
  {
    Digits4Value('2', '0', '2', '4');
    DigitValues();
  }

  /** A day before 2000 surfaces as the format message too. */
  lemma Before2000Example()
    ensures IssuanceDateFromString("31/12/1999") == Err(FormatMessage)
  {
    ParsesTwoDigitFields("31/12/1999");
  }

  /** A day the month does not have is refused. */
  lemma NoSuchDayExample()
    ensures IssuanceDateFromString("30/02/2024") == Err(FormatMessage)
  {
    ParsesTwoDigitFields("30/02/2024");
  }

  datatype BillingPeriod = BillingPeriod(startDate: IssuanceDate, endDate: IssuanceDate, paymentDueDate: IssuanceDate)

  const EndBeforeStartMessage := "End date cannot be before start date"
  const DueBeforeEndMessage := "Payment due date cannot be before end date"
  const DueBeforeTodayMessage := "Payment due date cannot be before today"
  const StartAfterTodayMessage := "Start date cannot be after today"

  /** The `after` validator of `BillingPeriod`, with today's date as a
      parameter and the four checks in the source's order. */
  function ValidateBillingPeriod(start: IssuanceDate, end: IssuanceDate, due: IssuanceDate, today: Date)
    : (r: Result<BillingPeriod, string>)
    ensures r.Ok? <==>
      !Before(end.date, start.date) && !Before(due.date, end.date)
      && !Before(due.date, today) && !Before(today, start.date)
    ensures r.Ok? ==> r.value == BillingPeriod(start, end, due)
    ensures Before(end.date, start.date) ==> r == Err(EndBeforeStartMessage)
    ensures !Before(end.date, start.date) && Before(due.date, end.date) ==> r == Err(DueBeforeEndMessage)
    ensures !Before(end.date, start.date) && !Before(due.date, end.date) && Before(due.date, today)
      ==> r == Err(DueBeforeTodayMessage)
    ensures r.Err? && !Before(due.date, today) && !Before(due.date, end.date) && !Before(end.date, start.date)
      ==> r == Err(StartAfterTodayMessage)
  {
    if Before(end.date, start.date) then Err(EndBeforeStartMessage)
    else if Before(due.date, end.date) then Err(DueBeforeEndMessage)
    else if Before(due.date, today) then Err(DueBeforeTodayMessage)
    else if Before(today, start.date) then Err(StartAfterTodayMessage)
    else Ok(BillingPeriod(start, end, due))
  }

  predicate NotAfter(a: Date, b: Date) { !Before(b, a) }

  /** An accepted period is ordered: start, end and due date follow one
      another, and today falls between start and due date. */
  lemma BillingPeriodOrdered(start: IssuanceDate, end: IssuanceDate, due: IssuanceDate, today: Date)
    requires ValidateBillingPeriod(start, end, due, today).Ok?
    ensures NotAfter(start.date, end.date) && NotAfter(end.date, due.date)
    ensures NotAfter(start.date, due.date)
    ensures NotAfter(start.date, today) && NotAfter(today, due.date)
  {
  }

  /** What the source's comparisons raise. */
  datatype Raised = ValueError(message: string) | TypeError(message: string)

  const CompareMessage := "can't compare datetime.datetime to datetime.date"

  /** The validator as written: the third and fourth checks compare a
      `datetime` with a `date`, which raises TypeError whenever the first
      two checks pass, so no period is ever built. */
  function BillingPeriodAsWritten(start: IssuanceDate, end: IssuanceDate, due: IssuanceDate)
    : (r: Result<BillingPeriod, Raised>)
    ensures r.Err?
    ensures r.error.TypeError? <==> !Before(end.date, start.date) && !Before(due.date, end.date)
  {
    if Before(end.date, start.date) then Err(ValueError(EndBeforeStartMessage))
    else if Before(due.date, end.date) then Err(ValueError(DueBeforeEndMessage))
    else Err(TypeError(CompareMessage))
  }

  datatype IssuanceData = IssuanceData(
    issuanceDate: IssuanceDate, conceptType: ConceptType, billingPeriod: Option<BillingPeriod>)

  const BillingPeriodRequiredMessage := "Billing period is required when concept includes services"

  predicate IncludesServices(c: ConceptType) { c == Servicios || c == ProductosYServicios }

  /** The `after` validator of `IssuanceData`: a concept with services needs
      a billing period; products alone do not. */
  function ValidateIssuanceData(d: IssuanceDate, c: ConceptType, period: Option<BillingPeriod>)
    : (r: Result<IssuanceData, string>)
    ensures r.Ok? <==> !IncludesServices(c) || period.Some?
    ensures r.Ok? ==> r.value == IssuanceData(d, c, period)
    ensures r.Err? ==> r.error == BillingPeriodRequiredMessage
  {
    if IncludesServices(c) && period.None? then Err(BillingPeriodRequiredMessage)
    else Ok(IssuanceData(d, c, period))
  }

  /** Python truthiness of an `Optional[str]`: neither `None` nor empty. */
  predicate Truthy(s: Option<string>) { s.Some? && s.value != [] }

  predicate AllTruthy(start: Option<string>, end: Option<string>, due: Option<string>) {
    Truthy(start) && Truthy(end) && Truthy(due)
  }

  /** The three `IssuanceDate.from_string` calls of a billing period. */
  function ParsePeriodDates(start: string, end: string, due: string)
    : (r: Option<(IssuanceDate, IssuanceDate, IssuanceDate)>)
    ensures r.Some? <==>
      IssuanceDateFromString(start).Ok? && IssuanceDateFromString(end).Ok? && IssuanceDateFromString(due).Ok?
    ensures r.Some? ==> r.value == (IssuanceDateFromString(start).value, IssuanceDateFromString(end).value,
                                    IssuanceDateFromString(due).value)
  {
    match IssuanceDateFromString(start)
    case Err(_) => None
    case Ok(s) =>
      match IssuanceDateFromString(end)
      case Err(_) => None
      case Ok(e) =>
        match IssuanceDateFromString(due)
        case Err(_) => None
        case Ok(p) => Some((s, e, p))
  }

  /** The three period dates are given, parse, and are in order for `today`. */
  predicate PeriodAccepted(start: Option<string>, end: Option<string>, due: Option<string>, today: Date) {
    && AllTruthy(start, end, due)
    && ParsePeriodDates(start.value, end.value, due.value).Some?
    && var (s, e, p) := ParsePeriodDates(start.value, end.value, due.value).value;
       ValidateBillingPeriod(s, e, p, today).Ok?
  }

  /** `create_issuance_data` with the intended date comparisons: a period is
      built only when all three optional dates are non-empty; any refusal
      on the way gives `None`. */
  function CreateIssuanceData(issuanceDate: string, conceptType: ConceptType,
                              start: Option<string>, end: Option<string>, due: Option<string>, today: Date)
    : (r: Option<IssuanceData>)
    ensures r.Some? <==>
      && IssuanceDateFromString(issuanceDate).Ok?
      && (if AllTruthy(start, end, due) then PeriodAccepted(start, end, due, today)
          else !IncludesServices(conceptType))
    ensures r.Some? ==>
      && r.value.issuanceDate == IssuanceDateFromString(issuanceDate).value
      && r.value.conceptType == conceptType
      && (r.value.billingPeriod.Some? <==> AllTruthy(start, end, due))
    ensures r.Some? && AllTruthy(start, end, due) ==>
      && ParsePeriodDates(start.value, end.value, due.value).Some?
      && var (s, e, p) := ParsePeriodDates(start.value, end.value, due.value).value;
         r.value.billingPeriod == Some(BillingPeriod(s, e, p))
  {
    match IssuanceDateFromString(issuanceDate)
    case Err(_) => None
    case Ok(d) =>
      if AllTruthy(start, end, due) then
        match ParsePeriodDates(start.value, end.value, due.value)
        case None => None
        case Some((s, e, p)) =>
          match ValidateBillingPeriod(s, e, p, today)
          case Err(_) => None
          case Ok(bp) => Some(IssuanceData(d, conceptType, Some(bp)))
      else
        match ValidateIssuanceData(d, conceptType, None)
        case Ok(data) => Some(data)
        case Err(_) => None
  }

  /** `create_issuance_data` as written: a ValueError gives `None`, but the
      TypeError of `BillingPeriodAsWritten` is not caught and escapes
      (`Err`) whenever a complete, ordered period is given. */
  function CreateIssuanceDataAsWritten(issuanceDate: string, conceptType: ConceptType,
                                       start: Option<string>, end: Option<string>, due: Option<string>)
    : (r: Result<Option<IssuanceData>, Raised>)
    ensures r.Err? <==>
      && IssuanceDateFromString(issuanceDate).Ok?
      && AllTruthy(start, end, due)
      && ParsePeriodDates(start.value, end.value, due.value).Some?
      && var (s, e, p) := ParsePeriodDates(start.value, end.value, due.value).value;
         !Before(e.date, s.date) && !Before(p.date, e.date)
    ensures r.Err? ==> r.error.TypeError?
    ensures r.Ok? && r.value.Some? ==> r.value.value.billingPeriod.None?
  {
    match IssuanceDateFromString(issuanceDate)
    case Err(_) => Ok(None)
    case Ok(d) =>
      if AllTruthy(start, end, due) then
        match ParsePeriodDates(start.value, end.value, due.value)
        case None => Ok(None)
        case Some((s, e, p)) =>
          match BillingPeriodAsWritten(s, e, p)
          case Err(TypeError(msg)) => Err(TypeError(msg))
          case _ => Ok(None)
      else
        match ValidateIssuanceData(d, conceptType, None)
        case Ok(data) => Ok(Some(data))
        case Err(_) => Ok(None)
  }

  /** As written, no input yields issuance data for a services concept: a
      missing period is refused, and a complete one either fails a check or
      raises TypeError. */
  lemma AsWrittenNeverIssuesServices(issuanceDate: string, conceptType: ConceptType,
                                     start: Option<string>, end: Option<string>, due: Option<string>)
    requires IncludesServices(conceptType)
    ensures !(CreateIssuanceDataAsWritten(issuanceDate, conceptType, start, end, due).Ok?
              && CreateIssuanceDataAsWritten(issuanceDate, conceptType, start, end, due).value.Some?)
  {
  }

  /** A January service period, due and issued in February: the code as
      written raises TypeError instead of returning the data. */
  lemma BillingPeriodAsWrittenRaises()
    ensures CreateIssuanceDataAsWritten("05/02/2024", Servicios,
      Some("01/01/2024"), Some("31/01/2024"), Some("10/02/2024")).Err?
  {
    ExampleDatesParse();
  }

  /** The same input, issued on 5 February 2024, is accepted by the
      intended validator. */
  lemma BillingPeriodIntendedAccepts()
    ensures CreateIssuanceData("05/02/2024", Servicios,
      Some("01/01/2024"), Some("31/01/2024"), Some("10/02/2024"), Date(2024, 2, 5)).Some?
  {
    ExampleDatesParse();
    var s, e, p := IssuanceDate(Date(2024, 1, 1)), IssuanceDate(Date(2024, 1, 31)), IssuanceDate(Date(2024, 2, 10));
    assert ValidateBillingPeriod(s, e, p, Date(2024, 2, 5)).Ok?;
  }

  /** The four dates of the billing-period example. */
  lemma ExampleDatesParse()
    ensures IssuanceDateFromString("05/02/2024") == Ok(IssuanceDate(Date(2024, 2, 5)))
    ensures ParsePeriodDates("01/01/2024", "31/01/2024", "10/02/2024")
         == Some((IssuanceDate(Date(2024, 1, 1)), IssuanceDate(Date(2024, 1, 31)), IssuanceDate(Date(2024, 2, 10))))
  {
    ParsesIssueDay("05/02/2024");
    ParsesPeriodStart("01/01/2024");
    ParsesPeriodEnd("31/01/2024");
    ParsesDueDate("10/02/2024");
  }

  lemma ParsesIssueDay(s: string)
    requires s == "05/02/2024"
    ensures IssuanceDateFromString(s) == Ok(IssuanceDate(Date(2024, 2, 5)))
  {
    assert |s| == 10 && s[2] == '/' && s[5] == '/';
    assert s[0] == '0' && s[1] == '5' && s[3] == '0' && s[4] == '2' && s[6] == '2' && s[7] == '0' && s[8] == '2' && s[9] == '4';
    ParsesTwoDigitFields(s);
    DigitValues();
    assert ValidDate(Date(2024, 2, 5));
    assert StrptimeDate(s) == Some(Date(2024, 2, 5));
  }


  lemma ParsesPeriodStart(s: string)
    requires s == "01/01/2024"
    ensures IssuanceDateFromString(s) == Ok(IssuanceDate(Date(2024, 1, 1)))
  {
    assert |s| == 10 && s[2] == '/' && s[5] == '/';
    assert s[0] == '0' && s[1] == '1' && s[3] == '0' && s[4] == '1' && s[6] == '2' && s[7] == '0' && s[8] == '2' && s[9] == '4';
    ParsesTwoDigitFields(s);
    DigitValues();
    assert ValidDate(Date(2024, 1, 1));
    assert StrptimeDate(s) == Some(Date(2024, 1, 1));
  }


  lemma ParsesPeriodEnd(s: string)
    requires s == "31/01/2024"
    ensures IssuanceDateFromString(s) == Ok(IssuanceDate(Date(2024, 1, 31)))
  {
    assert |s| == 10 && s[2] == '/' && s[5] == '/';
    assert s[0] == '3' && s[1] == '1' && s[3] == '0' && s[4] == '1' && s[6] == '2' && s[7] == '0' && s[8] == '2' && s[9] == '4';
    ParsesTwoDigitFields(s);
    DigitValues();
    assert ValidDate(Date(2024, 1, 31));
    assert StrptimeDate(s) == Some(Date(2024, 1, 31));
  }


  lemma ParsesDueDate(s: string)
    requires s == "10/02/2024"
    ensures IssuanceDateFromString(s) == Ok(IssuanceDate(Date(2024, 2, 10)))
  {
    assert |s| == 10 && s[2] == '/' && s[5] == '/';
    assert s[0] == '1' && s[1] == '0' && s[3] == '0' && s[4] == '2' && s[6] == '2' && s[7] == '0' && s[8] == '2' && s[9] == '4';
    ParsesTwoDigitFields(s);
    DigitValues();
    assert ValidDate(Date(2024, 2, 10));
    assert StrptimeDate(s) == Some(Date(2024, 2, 10));
  }


  /** A string of the exact shape "dd/mm/yyyy" denotes the date its digits say. */
  lemma ParsesTwoDigitFields(s: string)
    requires |s| == 10 && s[2] == '/' && s[5] == '/'
    requires IsDigit(s[0]) && IsDigit(s[1]) && IsDigit(s[3]) && IsDigit(s[4])
    requires IsDigit(s[6]) && IsDigit(s[7]) && IsDigit(s[8]) && IsDigit(s[9])
    ensures
      var date := Date(
        1000 * DigitValue(s[6]) + 100 * DigitValue(s[7]) + 10 * DigitValue(s[8]) + DigitValue(s[9]),
        10 * DigitValue(s[3]) + DigitValue(s[4]),
        10 * DigitValue(s[0]) + DigitValue(s[1]));
      StrptimeDate(s) == if ValidDate(date) then Some(date) else None
  {
    var dd, mm, yyyy := [s[0], s[1]], [s[3], s[4]], [s[6], s[7], s[8], s[9]];
    DateTextFields(s);
    TwoDigitFields(s[0], s[1], s[3], s[4]);
    Digits4Value(s[6], s[7], s[8], s[9]);
    AssembleFields(DayField(dd), MonthField(mm), YearField(yyyy),
                   10 * DigitValue(s[0]) + DigitValue(s[1]), 10 * DigitValue(s[3]) + DigitValue(s[4]),
                   1000 * DigitValue(s[6]) + 100 * DigitValue(s[7]) + 10 * DigitValue(s[8]) + DigitValue(s[9]));
  }

  /** Fields read as their numbers when in range give the date those
      numbers name, if it exists. */
  lemma AssembleFields(d: Option<nat>, m: Option<nat>, y: Option<nat>, day: nat, month: nat, year: nat)
    requires d == if 1 <= day <= 31 then Some(day) else None
    requires m == if 1 <= month <= 12 then Some(month) else None
    requires y == Some(year)
    ensures AssembleDate(d, m, y) == if ValidDate(Date(year, month, day)) then Some(Date(year, month, day)) else None
  {
    if ValidDate(Date(year, month, day)) {
      assert DaysInMonth(year, month) <= 31;
    }
  }

  /** Ten characters with slashes at 2 and 5 are read as the fields
      between the slashes. */
  lemma DateTextFields(s: string)
    requires |s| == 10 && s[2] == '/' && s[5] == '/'
    requires IsDigit(s[0]) && IsDigit(s[1]) && IsDigit(s[3]) && IsDigit(s[4])
    ensures StrptimeDate(s)
         == AssembleDate(DayField([s[0], s[1]]), MonthField([s[3], s[4]]), YearField([s[6], s[7], s[8], s[9]]))
  {
    var dd, mm, yyyy := [s[0], s[1]], [s[3], s[4]], [s[6], s[7], s[8], s[9]];
    assert s == dd + "/" + mm + "/" + yyyy;
    StrptimeParts(dd, mm, yyyy);
  }

  /** Two-digit day and month fields read as their two-digit numbers, when
      in range. */
  lemma TwoDigitFields(d1: char, d2: char, m1: char, m2: char)
    requires IsDigit(d1) && IsDigit(d2) && IsDigit(m1) && IsDigit(m2)
    ensures var day := 10 * DigitValue(d1) + DigitValue(d2);
            DayField([d1, d2]) == if 1 <= day <= 31 then Some(day) else None
    ensures var month := 10 * DigitValue(m1) + DigitValue(m2);
            MonthField([m1, m2]) == if 1 <= month <= 12 then Some(month) else None
  {
    Digits2Value(d1, d2);
    Digits2Value(m1, m2);
  }

  /** `CONCEPT_DESCRIPTIONS`. */
  const ConceptDescriptions: map<ConceptType, string> := map[
    Productos := "Productos",
    Servicios := "Servicios",
    ProductosYServicios := "Productos y Servicios"]

  lemma ConceptDescriptionDefined(c: ConceptType)
    ensures c in ConceptDescriptions
  {
  }
}
