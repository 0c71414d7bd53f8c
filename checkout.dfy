/**
 * The checkout form (components/Checkout.tsx): shipping options, the
 * per-field validator, and the submit handler that places the order.
 */
module Checkout {
  import opened Wrappers
  import opened Types
  import opened Text
  import Seqs
  import CartRules
  import Storefront

  /** The option ids: the radios only ever select one of the listed options. */
  datatype ShippingId = StandardShipping | ExpressShipping

  datatype ShippingOption = ShippingOption(id: ShippingId, name: string, cost: real, delivery: string)

  const ShippingOptions: seq<ShippingOption> := [
    ShippingOption(StandardShipping, "Standard", 5.0, "4-6 business days"),
    ShippingOption(ExpressShipping, "Express", 15.0, "2-3 business days")
  ]

  /** `SHIPPING_OPTIONS.find(option => option.id === id)`, which the listed ids always satisfy. */
  function SelectedShipping(id: ShippingId): (r: ShippingOption)
    ensures r in ShippingOptions && r.id == id
  {
    var found := Seqs.Find(ShippingOptions, (o: ShippingOption) => o.id == id);
    assert ShippingOptions[if id == StandardShipping then 0 else 1].id == id;
    found.value
  }

  /** Standard costs 5 and Express 15. */
  lemma ShippingCosts()
    ensures SelectedShipping(StandardShipping).name == "Standard" && SelectedShipping(StandardShipping).cost == 5.0
    ensures SelectedShipping(ExpressShipping).name == "Express" && SelectedShipping(ExpressShipping).cost == 15.0
  {
  }

  /** `grandTotal`: the cart subtotal plus the selected option's cost. */
  function GrandTotal(cartTotal: real, option: ShippingOption): (r: real)
    ensures r - cartTotal == option.cost
  {
    cartTotal + option.cost
  }

  datatype PaymentChoice = CreditCardChoice | UpiChoice

  /** `'Credit Card'` or `'UPI'`, as the order records it. */
  function PaymentNameOf(pm: PaymentChoice): (r: PaymentMethodName)
    ensures r == CreditCard <==> pm == CreditCardChoice
    ensures r == Upi <==> pm == UpiChoice
  {
    match pm
    case CreditCardChoice => CreditCard
    case UpiChoice => Upi
  }

  datatype FormData = FormData(
    fullName: string,
    address: string,
    city: string,
    state: string,
    zip: string,
    cardName: string,
    cardNumber: string,
    cardExpiry: string,
    cardCvc: string,
    upiId: string)

  const EmptyForm := FormData("", "", "", "", "", "", "", "", "", "")

  /** The form's inputs, by their `name`; the error map is keyed by them. */
  datatype Field = FullName | Address | City | State | Zip | CardName | CardNumber | CardExpiry | CardCvc | UpiId

  /** `{ ...prev, [name]: value }`: exactly the one field changes. */
  function SetField(d: FormData, f: Field, value: string): (r: FormData)
    ensures Get(r, f) == value
    ensures forall g :: g != f ==> Get(r, g) == Get(d, g)
  {
    match f
    case FullName => d.(fullName := value)
    case Address => d.(address := value)
    case City => d.(city := value)
    case State => d.(state := value)
    case Zip => d.(zip := value)
    case CardName => d.(cardName := value)
    case CardNumber => d.(cardNumber := value)
    case CardExpiry => d.(cardExpiry := value)
    case CardCvc => d.(cardCvc := value)
    case UpiId => d.(upiId := value)
  }

  function Get(d: FormData, f: Field): string {
    match f
    case FullName => d.fullName
    case Address => d.address
    case City => d.city
    case State => d.state
    case Zip => d.zip
    case CardName => d.cardName
    case CardNumber => d.cardNumber
    case CardExpiry => d.cardExpiry
    case CardCvc => d.cardCvc
    case UpiId => d.upiId
  }

  /** The address part of the form: the card and UPI fields are dropped. */
  function CustomerOf(d: FormData): (c: CustomerDetails)
    ensures c.fullName == d.fullName && c.address == d.address && c.city == d.city
    ensures c.state == d.state && c.zip == d.zip
  {
    CustomerDetails(d.fullName, d.address, d.city, d.state, d.zip)
  }

  // ----- the patterns, as character-class predicates -----

  /** `/^\d{5}(-\d{4})?$/`. */
  predicate IsZip(s: string) {
    (|s| == 5 && AllDigits(s))
    || (|s| == 10 && AllDigits(s[..5]) && s[5] == '-' && AllDigits(s[6..]))
  }

  /** `/^\d{16}$/` after `replace(/\s/g, '')`. */
  predicate CardNumberOk(s: string) {
    var digits := StripWhitespace(s);
    |digits| == 16 && AllDigits(digits)
  }

  /** `/^(0[1-9]|1[0-2])\/\d{2}$/`. */
  predicate ExpiryOk(s: string) {
    |s| == 5
    && ((s[0] == '0' && '1' <= s[1] <= '9') || (s[0] == '1' && '0' <= s[1] <= '2'))
    && s[2] == '/' && IsDigit(s[3]) && IsDigit(s[4])
  }

  /** The expiry pattern reads `MM/YY` with a month from 1 to 12. */
  lemma ExpiryIsMonthSlashYear(s: string)
    ensures ExpiryOk(s) <==>
              && |s| == 5 && IsDigit(s[0]) && IsDigit(s[1]) && s[2] == '/' && IsDigit(s[3]) && IsDigit(s[4])
              && 1 <= DigitValue(s[0]) * 10 + DigitValue(s[1]) <= 12
  {
    if |s| == 5 && IsDigit(s[0]) && IsDigit(s[1]) {
      var m := DigitValue(s[0]) * 10 + DigitValue(s[1]);
      if s[0] == '0' {
        assert m == DigitValue(s[1]);
      } else if s[0] == '1' {
        assert m == 10 + DigitValue(s[1]);
      } else {
        assert DigitValue(s[0]) >= 2;
      }
    }
  }

  /** `/^\d{3,4}$/`. */
  predicate CvcOk(s: string) {
    3 <= |s| <= 4 && AllDigits(s)
  }

  /** `[\w.-]`. */
  predicate IsUpiChar(c: char) {
    IsWordChar(c) || c == '.' || c == '-'
  }

  predicate AllUpiChars(s: string) {
    forall i :: 0 <= i < |s| ==> IsUpiChar(s[i])
  }

  /** `@` splits a UPI id at its first occurrence. */
  predicate SplitsUpiAt(s: string, i: int) {
    0 < i < |s| - 1 && s[i] == '@' && AllUpiChars(s[..i]) && AllUpiChars(s[i + 1..])
  }

  /** `/^[\w.-]+@[\w.-]+$/`, decided at the first `@`. */
  predicate IsUpiId(s: string) {
    var k := Seqs.FindIndex(s, (c: char) => c == '@');
    SplitsUpiAt(s, k)
  }

  /** The pattern's reading: some `@` has a non-empty run of `[\w.-]` on each side. */
  lemma IsUpiIdIffSplit(s: string)
    ensures IsUpiId(s) <==> exists i :: SplitsUpiAt(s, i)
  {
    var k := Seqs.FindIndex(s, (c: char) => c == '@');
    if i :| SplitsUpiAt(s, i) {
      assert k >= 0 && k <= i;
    }
  }

  // ----- validateForm -----

  const FullNameMessage := "Full name is required."
  const AddressMessage := "Address is required."
  const CityMessage := "City is required."
  const StateMessage := "State / Province is required."
  const ZipMessage := "Valid ZIP code is required."
  const CardNameMessage := "Name on card is required."
  const CardNumberMessage := "Valid 16-digit card number is required."
  const CardExpiryMessage := "Valid expiration date (MM/YY) is required."
  const CardCvcMessage := "Valid CVC is required."
  const UpiIdMessage := "Please enter a valid UPI ID (e.g., yourname@bank)."

  function MessageFor(f: Field): string {
    match f
    case FullName => FullNameMessage
    case Address => AddressMessage
    case City => CityMessage
    case State => StateMessage
    case Zip => ZipMessage
    case CardName => CardNameMessage
    case CardNumber => CardNumberMessage
    case CardExpiry => CardExpiryMessage
    case CardCvc => CardCvcMessage
    case UpiId => UpiIdMessage
  }

  const AllFields: set<Field> := {FullName, Address, City, State, Zip, CardName, CardNumber, CardExpiry, CardCvc, UpiId}

  /**
   * The check of one field, as `validateForm` writes it: the text fields must
   * not be falsy after `trim` (by `TrimEmptyIffBlank`, exactly the blank
   * strings), the card fields are checked only under card payment and the
   * UPI id only under UPI.
   */
  predicate Fails(d: FormData, pm: PaymentChoice, f: Field) {
    match f
    case FullName => IsBlank(d.fullName)
    case Address => IsBlank(d.address)
    case City => IsBlank(d.city)
    case State => IsBlank(d.state)
    case Zip => !IsZip(d.zip)
    case CardName => pm == CreditCardChoice && IsBlank(d.cardName)
    case CardNumber => pm == CreditCardChoice && !CardNumberOk(d.cardNumber)
    case CardExpiry => pm == CreditCardChoice && !ExpiryOk(d.cardExpiry)
    case CardCvc => pm == CreditCardChoice && !CvcOk(d.cardCvc)
    case UpiId => pm == UpiChoice && !IsUpiId(d.upiId)
  }

  /** The error map `validateForm` builds: each failing field flagged with its message. */
  function ValidateForm(d: FormData, pm: PaymentChoice): (errors: map<Field, string>)
    ensures forall f :: f in errors <==> Fails(d, pm, f)
    ensures forall f :: f in errors ==> errors[f] == MessageFor(f)
  {
    map f | f in AllFields && Fails(d, pm, f) :: MessageFor(f)
  }

  /** A blank name or address field and a ZIP off the pattern are flagged whatever the payment method. */
  lemma AddressChecks(d: FormData, pm: PaymentChoice)
    ensures FullName in ValidateForm(d, pm) <==> IsBlank(d.fullName)
    ensures Address in ValidateForm(d, pm) <==> IsBlank(d.address)
    ensures City in ValidateForm(d, pm) <==> IsBlank(d.city)
    ensures State in ValidateForm(d, pm) <==> IsBlank(d.state)
    ensures Zip in ValidateForm(d, pm) <==> !IsZip(d.zip)
  {
  }

  /** The card fields are checked only under card payment and the UPI id only under UPI. */
  lemma PaymentChecks(d: FormData, pm: PaymentChoice)
    ensures CardName in ValidateForm(d, pm) <==> pm == CreditCardChoice && IsBlank(d.cardName)
    ensures CardNumber in ValidateForm(d, pm) <==> pm == CreditCardChoice && !CardNumberOk(d.cardNumber)
    ensures CardExpiry in ValidateForm(d, pm) <==> pm == CreditCardChoice && !ExpiryOk(d.cardExpiry)
    ensures CardCvc in ValidateForm(d, pm) <==> pm == CreditCardChoice && !CvcOk(d.cardCvc)
    ensures UpiId in ValidateForm(d, pm) <==> pm == UpiChoice && !IsUpiId(d.upiId)
  {
  }

  /** Every check the chosen payment method asks for passes. */
  predicate FormValid(d: FormData, pm: PaymentChoice) {
    && !IsBlank(d.fullName) && !IsBlank(d.address) && !IsBlank(d.city) && !IsBlank(d.state) && IsZip(d.zip)
    && (pm == CreditCardChoice ==>
          !IsBlank(d.cardName) && CardNumberOk(d.cardNumber) && ExpiryOk(d.cardExpiry) && CvcOk(d.cardCvc))
    && (pm == UpiChoice ==> IsUpiId(d.upiId))
  }

  /** The error map is empty exactly when the form is valid. */
  lemma NoErrorsIffValid(d: FormData, pm: PaymentChoice)
    ensures ValidateForm(d, pm) == map[] <==> FormValid(d, pm)
  {
    var errors := ValidateForm(d, pm);
    AddressChecks(d, pm);
    PaymentChecks(d, pm);
    if FormValid(d, pm) {
      forall f | f in errors ensures false {
        match f
        case FullName =>
        case Address =>
        case City =>
        case State =>
        case Zip =>
        case CardName =>
        case CardNumber =>
        case CardExpiry =>
        case CardCvc =>
        case UpiId =>
      }
    }
  }

  /** Two forms that agree on the address fields and the UPI id get the same errors under UPI. */
  lemma CardFieldsIgnoredUnderUpi(d: FormData, e: FormData)
    requires d.fullName == e.fullName && d.address == e.address && d.city == e.city
    requires d.state == e.state && d.zip == e.zip && d.upiId == e.upiId
    ensures ValidateForm(d, UpiChoice) == ValidateForm(e, UpiChoice)
  {
    var a := ValidateForm(d, UpiChoice);
    var b := ValidateForm(e, UpiChoice);
    assert forall f :: f in a <==> f in b by {
      forall f ensures f in a <==> f in b {
        match f
        case FullName =>
        case Address =>
        case City =>
        case State =>
        case Zip =>
        case CardName =>
        case CardNumber =>
        case CardExpiry =>
        case CardCvc =>
        case UpiId =>
      }
    }
  }

  /** Two forms that agree on every field but the UPI id get the same errors under card payment. */
  lemma UpiIgnoredUnderCard(d: FormData, u: string)
    ensures ValidateForm(d, CreditCardChoice) == ValidateForm(d.(upiId := u), CreditCardChoice)
  {
    var a := ValidateForm(d, CreditCardChoice);
    var b := ValidateForm(d.(upiId := u), CreditCardChoice);
    assert forall f :: f in a <==> f in b by {
      forall f ensures f in a <==> f in b {
        match f
        case FullName =>
        case Address =>
        case City =>
        case State =>
        case Zip =>
        case CardName =>
        case CardNumber =>
        case CardExpiry =>
        case CardCvc =>
        case UpiId =>
      }
    }
  }

  /** The checkout form's state cells. */
  class CheckoutForm {
    var form: FormData
    var shippingMethod: ShippingId
    var paymentMethod: PaymentChoice
    var errors: map<Field, string>
    var isSubmitted: bool

    /** Every recorded error is a validator message, so a field with an entry has a truthy error. */
    ghost predicate Valid()
      reads this
    {
      forall f :: f in errors ==> errors[f] == MessageFor(f)
    }

    /** A fresh form, Standard shipping, card payment, and the full name taken from the logged-in user. */
    constructor (currentUser: Option<User>)
      ensures Valid()
      ensures form == (if currentUser.Some? then EmptyForm.(fullName := currentUser.value.name) else EmptyForm)
      ensures shippingMethod == StandardShipping && paymentMethod == CreditCardChoice
      ensures errors == map[] && !isSubmitted
    {
      form := if currentUser.Some? then EmptyForm.(fullName := currentUser.value.name) else EmptyForm;
      shippingMethod := ShippingOptions[0].id;
      paymentMethod := CreditCardChoice;
      errors := map[];
      isSubmitted := false;
    }

    function Selected(): ShippingOption
      reads this
    {
      SelectedShipping(shippingMethod)
    }

    /** Editing a field stores the value and clears that field's error. */
    method HandleChange(field: Field, value: string)
      requires Valid()
      modifies this
      ensures Valid()
      ensures form == SetField(old(form), field, value)
      ensures errors == old(errors) - {field}
      ensures shippingMethod == old(shippingMethod) && paymentMethod == old(paymentMethod) && isSubmitted == old(isSubmitted)
    {
      form := SetField(form, field, value);
      if field in errors && errors[field] != "" {
        errors := errors - {field};
      } else {
        assert field !in errors;
      }
    }

    method SelectShipping(id: ShippingId)
      modifies this
      ensures shippingMethod == id
      ensures form == old(form) && paymentMethod == old(paymentMethod) && errors == old(errors) && isSubmitted == old(isSubmitted)
    {
      shippingMethod := id;
    }

    method SelectPaymentMethod(pm: PaymentChoice)
      modifies this
      ensures paymentMethod == pm
      ensures form == old(form) && shippingMethod == old(shippingMethod) && errors == old(errors) && isSubmitted == old(isSubmitted)
    {
      paymentMethod := pm;
    }

    /**
     * An empty cart goes back to the store without validating; otherwise the
     * errors are recorded and, when there are none, the order is placed with
     * the address fields, the option's cost and name, subtotal plus shipping
     * as the total and the chosen payment method.
     */
    method HandleSubmit(app: Storefront.App, now: int)
      requires Valid()
      modifies this, app, app.catalog
      ensures Valid()
      ensures form == old(form) && shippingMethod == old(shippingMethod) && paymentMethod == old(paymentMethod)
      ensures |old(app.cart)| == 0 ==>
                && app.State() == old(app.State()).(view := Storefront.ProductsView)
                && errors == old(errors) && isSubmitted == old(isSubmitted)
                && app.catalog.products == old(app.catalog.products)
      ensures |old(app.cart)| > 0 ==> errors == ValidateForm(form, paymentMethod)
      ensures |old(app.cart)| > 0 && errors != map[] ==>
                app.State() == old(app.State()) && isSubmitted == old(isSubmitted)
                && app.catalog.products == old(app.catalog.products)
      ensures |old(app.cart)| > 0 && errors == map[] ==>
                && isSubmitted
                && app.State() == old(app.State()).(
                     orders := [Storefront.PlacedOrder(CustomerOf(form), old(app.cart), Selected().cost, Selected().name,
                                                      GrandTotal(CartRules.CartTotal(old(app.cart)), Selected()),
                                                      PaymentNameOf(paymentMethod), now, old(app.currentUser))]
                               + old(app.orders),
                     products := CartRules.DecrementStock(old(app.products), old(app.cart)),
                     cart := [])
                && app.catalog.products == Storefront.WriteThrough(old(app.catalog.products), old(app.products), old(app.cart))
      ensures old(app.Synced()) ==> app.Synced()
      ensures old(app.CartOk() && UniqueIds(app.products) && CartRules.NonNegativeStock(app.products)) ==>
                CartRules.NonNegativeStock(app.products)
    {
      if |app.cart| == 0 {
        app.BackToStore();
        return;
      }
      var validationErrors := ValidateForm(form, paymentMethod);
      errors := validationErrors;
      if validationErrors == map[] {
        var option := Selected();
        app.HandlePlaceOrder(CustomerOf(form), option.cost, option.name, GrandTotal(app.CartTotal(), option),
                             PaymentNameOf(paymentMethod), now);
        isSubmitted := true;
      }
    }
  }
}
