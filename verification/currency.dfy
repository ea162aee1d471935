/** The invoice currency: the portal's currency codes, their descriptions,
    and the constructor that refuses the unselected placeholder. */
module Currency {
  import opened Common

  datatype CurrencyCode =
    | Unselected | BahtTailandia | DolarHongKong | DolarSingapur
    | DolarTaiwan | YuanChina | RupiaHindu | YenJapones
    | DinarKuwaiti | Euro | CoronaCheca | CoronaDanesa
    | CoronaNoruega | CoronaSueca | DinarSerbio | FrancoSuizo
    | ForintHungria | LeuRumano | LibraEsterlina | ZlotyPolaco
    | RubloRusia | DolarEstadounidense | DolarLibreEeuu | DolarCanadiense
    | PesoMexicano | BalboaPanamena | CordobaNicaraguense | DolarJamaica
    | FlorinAntillasHolandesas | LempiraHondurena | PesoDominicano | QuetzalGuatemalteco
    | BolivarVenezolano | GuaraniParaguayo | NuevoSolPeruano | PesoBoliviano
    | PesoChileno | PesoColombiano | PesoUruguayo | RealBrasileno
    | DolarAustraliano | DolarNeozelandes | DirhamMarroqui | LibraEgipcia
    | RandSudafricano | RiyalSaudita | ShekelIsrael | DerechosEspecialesGiro
    | GramosOroFino

  /** The code the portal's select uses (the enum value); the placeholder is empty. */
  function CurrencyValue(c: CurrencyCode): (r: string)
    ensures r == "" <==> c == Unselected
    ensures c != Unselected ==> |r| == 3
  {
    match c
    case Unselected => ""
    case BahtTailandia => "057"
    case DolarHongKong => "051"
    case DolarSingapur => "052"
    case DolarTaiwan => "054"
    case YuanChina => "064"
    case RupiaHindu => "062"
    case YenJapones => "019"
    case DinarKuwaiti => "059"
    case Euro => "060"
    case CoronaCheca => "024"
    case CoronaDanesa => "014"
    case CoronaNoruega => "015"
    case CoronaSueca => "016"
    case DinarSerbio => "025"
    case FrancoSuizo => "009"
    case ForintHungria => "056"
    case LeuRumano => "040"
    case LibraEsterlina => "021"
    case ZlotyPolaco => "061"
    case RubloRusia => "RUB"
    case DolarEstadounidense => "DOL"
    case DolarLibreEeuu => "002"
    case DolarCanadiense => "018"
    case PesoMexicano => "010"
    case BalboaPanamena => "043"
    case CordobaNicaraguense => "044"
    case DolarJamaica => "053"
    case FlorinAntillasHolandesas => "028"
    case LempiraHondurena => "063"
    case PesoDominicano => "042"
    case QuetzalGuatemalteco => "055"
    case BolivarVenezolano => "023"
    case GuaraniParaguayo => "029"
    case NuevoSolPeruano => "035"
    case PesoBoliviano => "031"
    case PesoChileno => "033"
    case PesoColombiano => "032"
    case PesoUruguayo => "011"
    case RealBrasileno => "012"
    case DolarAustraliano => "026"
    case DolarNeozelandes => "NZD"
    case DirhamMarroqui => "045"
    case LibraEgipcia => "046"
    case RandSudafricano => "034"
    case RiyalSaudita => "047"
    case ShekelIsrael => "030"
    case DerechosEspecialesGiro => "041"
    case GramosOroFino => "049"
  }

  /** `CurrencyCode(value)`: lookup by value; `None` where Python raises
      ValueError. Every value but the placeholder's has three characters,
      which are compared one by one. */
  function CurrencyFromValue(value: string): (r: Option<CurrencyCode>)
    ensures r.Some? ==> CurrencyValue(r.value) == value
  {
    if value == "" then Some(Unselected)
    else if |value| != 3 then None
    else CurrencyFromChars(value[0], value[1], value[2])
  }

  /** The three characters of a value, looked up by prefix; every code
      found has exactly those characters as its value. */
  function CurrencyFromChars(a: char, b: char, c: char): (r: Option<CurrencyCode>)
    ensures r.Some? ==> CurrencyValue(r.value) == [a, b, c]
  {
    match a
    case '0' =>
      (match b
       case '5' => CurrencyFrom05(c)
       case '6' => CurrencyFrom06(c)
       case '1' => CurrencyFrom01(c)
       case '2' => CurrencyFrom02(c)
       case '0' => CurrencyFrom00(c)
       case '4' => CurrencyFrom04(c)
       case '3' => CurrencyFrom03(c)
       case _ => None)
    case 'R' => if b == 'U' && c == 'B' then Some(RubloRusia) else None
    case 'D' => if b == 'O' && c == 'L' then Some(DolarEstadounidense) else None
    case 'N' => if b == 'Z' && c == 'D' then Some(DolarNeozelandes) else None
    case _ => None
  }

  function CurrencyFrom05(c: char): (r: Option<CurrencyCode>)
    ensures r.Some? ==> CurrencyValue(r.value) == ['0', '5', c]
  {
    match c
    case '7' => Some(BahtTailandia)
    case '1' => Some(DolarHongKong)
    case '2' => Some(DolarSingapur)
    case '4' => Some(DolarTaiwan)
    case '9' => Some(DinarKuwaiti)
    case '6' => Some(ForintHungria)
    case '3' => Some(DolarJamaica)
    case '5' => Some(QuetzalGuatemalteco)
    case _ => None
  }

  function CurrencyFrom06(c: char): (r: Option<CurrencyCode>)
    ensures r.Some? ==> CurrencyValue(r.value) == ['0', '6', c]
  {
    match c
    case '4' => Some(YuanChina)
    case '2' => Some(RupiaHindu)
    case '0' => Some(Euro)
    case '1' => Some(ZlotyPolaco)
    case '3' => Some(LempiraHondurena)
    case _ => None
  }

  function CurrencyFrom01(c: char): (r: Option<CurrencyCode>)
    ensures r.Some? ==> CurrencyValue(r.value) == ['0', '1', c]
  {
    match c
    case '9' => Some(YenJapones)
    case '4' => Some(CoronaDanesa)
    case '5' => Some(CoronaNoruega)
    case '6' => Some(CoronaSueca)
    case '8' => Some(DolarCanadiense)
    case '0' => Some(PesoMexicano)
    case '1' => Some(PesoUruguayo)
    case '2' => Some(RealBrasileno)
    case _ => None
  }

  function CurrencyFrom02(c: char): (r: Option<CurrencyCode>)
    ensures r.Some? ==> CurrencyValue(r.value) == ['0', '2', c]
  {
    match c
    case '4' => Some(CoronaCheca)
    case '5' => Some(DinarSerbio)
    case '1' => Some(LibraEsterlina)
    case '8' => Some(FlorinAntillasHolandesas)
    case '3' => Some(BolivarVenezolano)
    case '9' => Some(GuaraniParaguayo)
    case '6' => Some(DolarAustraliano)
    case _ => None
  }

  function CurrencyFrom00(c: char): (r: Option<CurrencyCode>)
    ensures r.Some? ==> CurrencyValue(r.value) == ['0', '0', c]
  {
    match c
    case '9' => Some(FrancoSuizo)
    case '2' => Some(DolarLibreEeuu)
    case _ => None
  }

  function CurrencyFrom04(c: char): (r: Option<CurrencyCode>)
    ensures r.Some? ==> CurrencyValue(r.value) == ['0', '4', c]
  {
    match c
    case '0' => Some(LeuRumano)
    case '3' => Some(BalboaPanamena)
    case '4' => Some(CordobaNicaraguense)
    case '2' => Some(PesoDominicano)
    case '5' => Some(DirhamMarroqui)
    case '6' => Some(LibraEgipcia)
    case '7' => Some(RiyalSaudita)
    case '1' => Some(DerechosEspecialesGiro)
    case '9' => Some(GramosOroFino)
    case _ => None
  }

  function CurrencyFrom03(c: char): (r: Option<CurrencyCode>)
    ensures r.Some? ==> CurrencyValue(r.value) == ['0', '3', c]
  {
    match c
    case '5' => Some(NuevoSolPeruano)
    case '1' => Some(PesoBoliviano)
    case '3' => Some(PesoChileno)
    case '2' => Some(PesoColombiano)
    case '4' => Some(RandSudafricano)
    case '0' => Some(ShekelIsrael)
    case _ => None
  }

  /** `CURRENCY_DESCRIPTIONS[code]`: every code except the placeholder has
      an entry; `None` where Python raises KeyError. */
  function CurrencyDescription(c: CurrencyCode): (r: Option<string>)
    ensures r.None? <==> c == Unselected
    ensures r.Some? ==> |r.value| > 0
  {
    match c
    case Unselected => None
    case BahtTailandia => Some("Baht (Tailandia)")
    case DolarHongKong => Some("Dólar de Hong Kong")
    case DolarSingapur => Some("Dólar de Singapur")
    case DolarTaiwan => Some("Dólar de Taiwan")
    case YuanChina => Some("Yuan (Rep. Pop. China)")
    case RupiaHindu => Some("Rupia Hindú")
    case YenJapones => Some("Yens")
    case DinarKuwaiti => Some("Dinar Kuwaiti")
    case Euro => Some("Euro")
    case CoronaCheca => Some("Corona Checa")
    case CoronaDanesa => Some("Coronas Danesas")
    case CoronaNoruega => Some("Coronas Noruegas")
    case CoronaSueca => Some("Coronas Suecas")
    case DinarSerbio => Some("Dinar Serbio")
    case FrancoSuizo => Some("Franco Suizo")
    case ForintHungria => Some("Forint (Hungría)")
    case LeuRumano => Some("Leu Rumano")
    case LibraEsterlina => Some("Libra Esterlina")
    case ZlotyPolaco => Some("Zloty Polaco")
    case RubloRusia => Some("Rublo (Rusia)")
    case DolarEstadounidense => Some("Dólar Estadounidense")
    case DolarLibreEeuu => Some("Dólar Libre EEUU")
    case DolarCanadiense => Some("Dólar Canadiense")
    case PesoMexicano => Some("Pesos Mejicanos")
    case BalboaPanamena => Some("Balboas Panameñas")
    case CordobaNicaraguense => Some("Córdoba Nicaragüense")
    case DolarJamaica => Some("Dólar de Jamaica")
    case FlorinAntillasHolandesas => Some("Florín (Antillas Holandesas)")
    case LempiraHondurena => Some("Lempira Hondureña")
    case PesoDominicano => Some("Peso Dominicano")
    case QuetzalGuatemalteco => Some("Quetzal Guatemalteco")
    case BolivarVenezolano => Some("Bolívar Venezolano")
    case GuaraniParaguayo => Some("Güaraní")
    case NuevoSolPeruano => Some("Nuevo Sol Peruano")
    case PesoBoliviano => Some("Peso Boliviano")
    case PesoChileno => Some("Peso Chileno")
    case PesoColombiano => Some("Peso Colombiano")
    case PesoUruguayo => Some("Pesos Uruguayos")
    case RealBrasileno => Some("Real")
    case DolarAustraliano => Some("Dólar Australiano")
    case DolarNeozelandes => Some("Dólar Neozelandes")
    case DirhamMarroqui => Some("Dirham Marroquí")
    case LibraEgipcia => Some("Libra Egipcia")
    case RandSudafricano => Some("Rand Sudafricano")
    case RiyalSaudita => Some("Riyal Saudita")
    case ShekelIsrael => Some("Shekel (Israel)")
    case DerechosEspecialesGiro => Some("Derechos Especiales de Giro")
    case GramosOroFino => Some("Gramos de Oro Fino")
  }

  /** Looking a code's value up gives back that code. */
  lemma CurrencyValueRoundTrip(c: CurrencyCode)
    ensures CurrencyFromValue(CurrencyValue(c)) == Some(c)
  {
    match c
    case Unselected | BahtTailandia | DolarHongKong | DolarSingapur
       | DolarTaiwan | YuanChina | RupiaHindu =>
      RoundTripPart1(c);
    case YenJapones | DinarKuwaiti | Euro | CoronaCheca
       | CoronaDanesa | CoronaNoruega | CoronaSueca =>
      RoundTripPart2(c);
    case DinarSerbio | FrancoSuizo | ForintHungria | LeuRumano
       | LibraEsterlina | ZlotyPolaco | RubloRusia =>
      RoundTripPart3(c);
    case DolarEstadounidense | DolarLibreEeuu | DolarCanadiense | PesoMexicano
       | BalboaPanamena | CordobaNicaraguense | DolarJamaica =>
      RoundTripPart4(c);
    case FlorinAntillasHolandesas | LempiraHondurena | PesoDominicano | QuetzalGuatemalteco
       | BolivarVenezolano | GuaraniParaguayo | NuevoSolPeruano =>
      RoundTripPart5(c);
    case PesoBoliviano | PesoChileno | PesoColombiano | PesoUruguayo =>
      RoundTripPart6(c);
    case RealBrasileno | DolarAustraliano | DolarNeozelandes =>
      RoundTripPart7(c);
    case DirhamMarroqui | LibraEgipcia | RandSudafricano | RiyalSaudita =>
      RoundTripPart8(c);
    case ShekelIsrael | DerechosEspecialesGiro | GramosOroFino =>
      RoundTripPart9(c);
  }

  /** The round trip for one stretch of the enumeration; the nine
      stretches together cover every code. */
  lemma RoundTripPart1(c: CurrencyCode)
    requires c.Unselected? || c.BahtTailandia? || c.DolarHongKong? || c.DolarSingapur?
          || c.DolarTaiwan? || c.YuanChina? || c.RupiaHindu?
    ensures CurrencyFromValue(CurrencyValue(c)) == Some(c)
  {
    match c
    case Unselected =>
    case BahtTailandia =>
    case DolarHongKong =>
    case DolarSingapur =>
    case DolarTaiwan =>
    case YuanChina =>
    case RupiaHindu =>
  }

  lemma RoundTripPart2(c: CurrencyCode)
    requires c.YenJapones? || c.DinarKuwaiti? || c.Euro? || c.CoronaCheca?
          || c.CoronaDanesa? || c.CoronaNoruega? || c.CoronaSueca?
    ensures CurrencyFromValue(CurrencyValue(c)) == Some(c)
  {
    match c
    case YenJapones =>
    case DinarKuwaiti =>
    case Euro =>
    case CoronaCheca =>
    case CoronaDanesa =>
    case CoronaNoruega =>
    case CoronaSueca =>
  }

  lemma RoundTripPart3(c: CurrencyCode)
    requires c.DinarSerbio? || c.FrancoSuizo? || c.ForintHungria? || c.LeuRumano?
          || c.LibraEsterlina? || c.ZlotyPolaco? || c.RubloRusia?
    ensures CurrencyFromValue(CurrencyValue(c)) == Some(c)
  {
    match c
    case DinarSerbio =>
    case FrancoSuizo =>
    case ForintHungria =>
    case LeuRumano =>
    case LibraEsterlina =>
    case ZlotyPolaco =>
    case RubloRusia =>
  }

  lemma RoundTripPart4(c: CurrencyCode)
    requires c.DolarEstadounidense? || c.DolarLibreEeuu? || c.DolarCanadiense? || c.PesoMexicano?
          || c.BalboaPanamena? || c.CordobaNicaraguense? || c.DolarJamaica?
    ensures CurrencyFromValue(CurrencyValue(c)) == Some(c)
  {
    match c
    case DolarEstadounidense =>
    case DolarLibreEeuu =>
    case DolarCanadiense =>
    case PesoMexicano =>
    case BalboaPanamena =>
    case CordobaNicaraguense =>
    case DolarJamaica =>
  }

  lemma RoundTripPart5(c: CurrencyCode)
    requires c.FlorinAntillasHolandesas? || c.LempiraHondurena? || c.PesoDominicano? || c.QuetzalGuatemalteco?
          || c.BolivarVenezolano? || c.GuaraniParaguayo? || c.NuevoSolPeruano?
    ensures CurrencyFromValue(CurrencyValue(c)) == Some(c)
  {
    match c
    case FlorinAntillasHolandesas =>
    case LempiraHondurena =>
    case PesoDominicano =>
    case QuetzalGuatemalteco =>
    case BolivarVenezolano =>
    case GuaraniParaguayo =>
    case NuevoSolPeruano =>
  }

  lemma RoundTripPart6(c: CurrencyCode)
    requires c.PesoBoliviano? || c.PesoChileno? || c.PesoColombiano? || c.PesoUruguayo?
    ensures CurrencyFromValue(CurrencyValue(c)) == Some(c)
  {
    match c
    case PesoBoliviano =>
    case PesoChileno =>
    case PesoColombiano =>
    case PesoUruguayo =>
  }

  lemma RoundTripPart7(c: CurrencyCode)
    requires c.RealBrasileno? || c.DolarAustraliano? || c.DolarNeozelandes?
    ensures CurrencyFromValue(CurrencyValue(c)) == Some(c)
  {
    match c
    case RealBrasileno =>
    case DolarAustraliano =>
    case DolarNeozelandes =>
  }

  lemma RoundTripPart8(c: CurrencyCode)
    requires c.DirhamMarroqui? || c.LibraEgipcia? || c.RandSudafricano? || c.RiyalSaudita?
    ensures CurrencyFromValue(CurrencyValue(c)) == Some(c)
  {
    match c
    case DirhamMarroqui =>
    case LibraEgipcia =>
    case RandSudafricano =>
    case RiyalSaudita =>
  }

  lemma RoundTripPart9(c: CurrencyCode)
    requires c.ShekelIsrael? || c.DerechosEspecialesGiro? || c.GramosOroFino?
    ensures CurrencyFromValue(CurrencyValue(c)) == Some(c)
  {
    match c
    case ShekelIsrael =>
    case DerechosEspecialesGiro =>
    case GramosOroFino =>
  }

  /** No two codes share a value. */
  lemma CurrencyValuesDistinct(a: CurrencyCode, b: CurrencyCode)
    ensures CurrencyValue(a) == CurrencyValue(b) ==> a == b
  {
    CurrencyValueRoundTrip(a);
    CurrencyValueRoundTrip(b);
  }

  datatype CurrencyInfo = CurrencyInfo(code: CurrencyCode, description: string)

  const UnselectedMessage := "Currency must be selected"

  /** `create_currency_info`: the placeholder is refused; any other code is
      paired with its table description. */
  function CreateCurrencyInfo(code: CurrencyCode): (r: Result<CurrencyInfo, string>)
    ensures r.Err? <==> code == Unselected
    ensures r.Err? ==> r.error == UnselectedMessage
    ensures code != Unselected ==> CurrencyDescription(code).Some?
    ensures r.Ok? ==> (CurrencyDescription(code).Some?
                       && r.value == CurrencyInfo(code, CurrencyDescription(code).value))
  {
    if code == Unselected then Err(UnselectedMessage)
    else
      match CurrencyDescription(code)
      case Some(description) => Ok(CurrencyInfo(code, description))
  }
}
