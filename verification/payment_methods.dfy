/** The payment methods selected on an invoice: a set the form code adds to
    and removes from, and whether any of them needs card data. */
module PaymentMethods {
  import opened Common

  datatype PaymentMethod =
    | Contado | TarjetaDebito | TarjetaCredito | CuentaCorriente
    | Cheque | TransferenciaBancaria | Otra | OtrosMediosElectronicos

  /** The portal's numeric code of each method (the enum value). */
  function PaymentMethodCode(m: PaymentMethod): nat {
    match m
    case Contado => 1
    case TarjetaDebito => 69
    case TarjetaCredito => 68
    case CuentaCorriente => 96
    case Cheque => 97
    case TransferenciaBancaria => 91
    case Otra => 99
    case OtrosMediosElectronicos => 90
  }

  lemma PaymentMethodCodeInjective(m: PaymentMethod, n: PaymentMethod)
    ensures PaymentMethodCode(m) == PaymentMethodCode(n) ==> m == n
  {
  }

  /** `PAYMENT_METHOD_DESCRIPTIONS`. */
  const PaymentMethodDescriptions: map<PaymentMethod, string> := map[
    Contado := "Contado",
    TarjetaDebito := "Tarjeta de Débito",
    TarjetaCredito := "Tarjeta de Crédito",
    CuentaCorriente := "Cuenta Corriente",
    Cheque := "Cheque",
    TransferenciaBancaria := "Transferencia Bancaria",
    Otra := "Otra",
    OtrosMediosElectronicos := "Otros medios de pago electrónico"]

  lemma DescriptionDefined(m: PaymentMethod)
    ensures m in PaymentMethodDescriptions && |PaymentMethodDescriptions[m]| > 0
  {
  }

  /** The methods that need card data filled in. */
  const CardMethods: set<PaymentMethod> := {TarjetaDebito, TarjetaCredito}

  /** `any(method in card_methods for method in selected)`. */
  predicate AnyCardMethod(selected: set<PaymentMethod>) {
    exists m :: m in selected && m in CardMethods
  }

  /** Card data is needed exactly when a debit or a credit card is among the
      selected methods. */
  lemma AnyCardMethodIff(selected: set<PaymentMethod>)
    ensures AnyCardMethod(selected) <==> TarjetaDebito in selected || TarjetaCredito in selected
  {
    if TarjetaDebito in selected {
      assert TarjetaDebito in CardMethods;
    } else if TarjetaCredito in selected {
      assert TarjetaCredito in CardMethods;
    }
  }

  /** `PaymentMethodInfo`: the mutable selection. */
  class PaymentMethodInfo {
    var selectedMethods: set<PaymentMethod>

    constructor(methods: set<PaymentMethod>)
      ensures selectedMethods == methods
    {
      selectedMethods := methods;
    }

    /** `add_payment_method`: afterwards the method is selected and every
        other method is as selected as before. */
    method AddPaymentMethod(m: PaymentMethod)
      modifies this
      ensures selectedMethods == old(selectedMethods) + {m}
      ensures HasPaymentMethod(m)
      ensures forall n :: n != m ==> (HasPaymentMethod(n) <==> n in old(selectedMethods))
    {
      selectedMethods := selectedMethods + {m};
    }

    /** `remove_payment_method` (a `discard`): afterwards the method is not
        selected, every other method is as before, and removing an absent
        method changes nothing. */
    method RemovePaymentMethod(m: PaymentMethod)
      modifies this
      ensures selectedMethods == old(selectedMethods) - {m}
      ensures !HasPaymentMethod(m)
      ensures forall n :: n != m ==> (HasPaymentMethod(n) <==> n in old(selectedMethods))
      ensures m !in old(selectedMethods) ==> selectedMethods == old(selectedMethods)
    {
      selectedMethods := selectedMethods - {m};
    }

    /** `has_payment_method`; a selected card method means card data is needed. */
    predicate HasPaymentMethod(m: PaymentMethod): (b: bool)
      reads this
      ensures b && m in CardMethods ==> RequiresCardData()
    {
      m in selectedMethods
    }

    /** The `requires_card_data` property: a debit or a credit card is selected. */
    predicate RequiresCardData(): (b: bool)
      reads this
      ensures b <==> TarjetaDebito in selectedMethods || TarjetaCredito in selectedMethods
    {
      AnyCardMethodIff(selectedMethods);
      AnyCardMethod(selectedMethods)
    }
  }

  /** `set(methods)`: the distinct arguments. */
  function DistinctMethods(methods: seq<PaymentMethod>): (r: set<PaymentMethod>)
    ensures forall m :: m in r <==> m in methods
    ensures |r| <= |methods|
    ensures methods != [] ==> r != {}
  {
    if methods == [] then {}
    else
      var rest := DistinctMethods(methods[1..]);
      assert forall m :: m in methods <==> m == methods[0] || m in methods[1..];
      {methods[0]} + rest
  }

  const NoMethodMessage := "At least one payment method must be selected"

  /** What `create_payment_method_info(*methods)` selects: an error for no
      arguments, otherwise the arguments with duplicates collapsed. */
  function PaymentSelection(methods: seq<PaymentMethod>): (r: Result<set<PaymentMethod>, string>)
    ensures r.Err? <==> methods == []
    ensures r.Err? ==> r.error == NoMethodMessage
    ensures r.Ok? ==> (forall m :: m in r.value <==> m in methods) && r.value != {}
  {
    if methods == [] then Err(NoMethodMessage) else Ok(DistinctMethods(methods))
  }

  /** `create_payment_method_info`: a fresh selection object, or the error. */
  method CreatePaymentMethodInfo(methods: seq<PaymentMethod>) returns (r: Result<PaymentMethodInfo, string>)
    ensures r.Err? <==> methods == []
    ensures r.Err? ==> r.error == NoMethodMessage
    ensures r.Ok? ==> fresh(r.value) && r.value.selectedMethods == PaymentSelection(methods).value
  {
    match PaymentSelection(methods)
    case Err(e) =>
      r := Err(e);
    case Ok(selected) =>
      var info := new PaymentMethodInfo(selected);
      r := Ok(info);
  }

  /** Repeated arguments count once: (contado, contado) selects one method. */
  lemma DuplicatesCollapse()
    ensures PaymentSelection([Contado, Contado]) == Ok({Contado})
  {
    assert [Contado, Contado][1..] == [Contado];
  }
}
