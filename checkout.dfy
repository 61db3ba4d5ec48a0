/**
 * The checkout page (frontend/src/pages/Checkout.jsx): the field rules of its
 * validation schema, and the submit that clears the cart and shows the
 * confirmation.
 */
module Checkout {
  import opened Text
  import opened Wrappers
  import opened CartContext
  import AuthContext

  /** The form values; an untouched input is the empty string. */
  datatype Form = Form(
    deliveryMethod: string,
    firstName: string,
    lastName: string,
    email: string,
    address: string,
    city: string,
    state: string,
    postalCode: string,
    cardNumber: string,
    cardExpiry: string,
    cardCvc: string)

  /** A `required()` string: present and not empty. */
  predicate Present(s: string) { s != "" }

  /** /^\d{16}$/ */
  predicate CardNumberOk(s: string) { |s| == 16 && AllDigits(s) }

  /** /^(0[1-9]|1[0-2])\/\d{2}$/ */
  predicate ExpiryOk(s: string) {
    |s| == 5 && s[2] == '/' && IsDigit(s[3]) && IsDigit(s[4])
    && ((s[0] == '0' && '1' <= s[1] <= '9') || (s[0] == '1' && '0' <= s[1] <= '2'))
  }

  /** /^\d{3,4}$/ */
  predicate CvcOk(s: string) { (|s| == 3 || |s| == 4) && AllDigits(s) }

  datatype Field =
    | DeliveryMethod | FirstName | LastName | Email | Address | City | State | PostalCode
    | CardNumber | CardExpiry | CardCvc

  /** Whether the schema accepts one field; `isEmail` stands for yup's email() test. */
  predicate FieldOk(f: Form, isEmail: string -> bool, x: Field) {
    match x
    case DeliveryMethod => f.deliveryMethod == "delivery" || f.deliveryMethod == "pickup"
    case FirstName => Present(f.firstName)
    case LastName => Present(f.lastName)
    case Email => Present(f.email) && isEmail(f.email)
    case Address => f.deliveryMethod != "delivery" || Present(f.address)
    case City => f.deliveryMethod != "delivery" || Present(f.city)
    case State => f.deliveryMethod != "delivery" || Present(f.state)
    case PostalCode => f.deliveryMethod != "delivery" || Present(f.postalCode)
    case CardNumber => CardNumberOk(f.cardNumber)
    case CardExpiry => ExpiryOk(f.cardExpiry)
    case CardCvc => CvcOk(f.cardCvc)
  }

  const AllFields: set<Field> :=
    {DeliveryMethod, FirstName, LastName, Email, Address, City, State, PostalCode, CardNumber, CardExpiry, CardCvc}

  lemma AllFieldsComplete(x: Field)
    ensures x in AllFields
  {
  }

  /** The fields the schema rejects. */
  function InvalidFields(f: Form, isEmail: string -> bool): (bad: set<Field>)
    ensures forall x :: x in bad <==> !FieldOk(f, isEmail, x)
  {
    forall x ensures x in AllFields { AllFieldsComplete(x); }
    set x | x in AllFields && !FieldOk(f, isEmail, x)
  }

  predicate FormValid(f: Form, isEmail: string -> bool) {
    InvalidFields(f, isEmail) == {}
  }

  /** The whole rule set in one statement: the address block matters only for delivery. */
  lemma FormValidIff(f: Form, isEmail: string -> bool)
    ensures FormValid(f, isEmail) <==>
      && (f.deliveryMethod == "delivery" || f.deliveryMethod == "pickup")
      && f.firstName != "" && f.lastName != "" && f.email != "" && isEmail(f.email)
      && (f.deliveryMethod == "delivery" ==>
            f.address != "" && f.city != "" && f.state != "" && f.postalCode != "")
      && CardNumberOk(f.cardNumber) && ExpiryOk(f.cardExpiry) && CvcOk(f.cardCvc)
  {
    var bad := InvalidFields(f, isEmail);
    if FormValid(f, isEmail) {
      forall x ensures FieldOk(f, isEmail, x) { assert x !in bad; }
      assert FieldOk(f, isEmail, DeliveryMethod) && FieldOk(f, isEmail, FirstName) && FieldOk(f, isEmail, LastName);
      assert FieldOk(f, isEmail, Email) && FieldOk(f, isEmail, Address) && FieldOk(f, isEmail, City);
      assert FieldOk(f, isEmail, State) && FieldOk(f, isEmail, PostalCode) && FieldOk(f, isEmail, CardNumber);
      assert FieldOk(f, isEmail, CardExpiry) && FieldOk(f, isEmail, CardCvc);
    } else {
      var x :| x in bad;
      match x {
        case DeliveryMethod =>
        case FirstName =>
        case LastName =>
        case Email =>
        case Address =>
        case City =>
        case State =>
        case PostalCode =>
        case CardNumber =>
        case CardExpiry =>
        case CardCvc =>
      }
    }
  }

  /** Switching to pickup never adds an error, and clears the ones on the address block. */
  lemma PickupDropsAddress(f: Form, isEmail: string -> bool)
    ensures var g := f.(deliveryMethod := "pickup");
      InvalidFields(g, isEmail) == InvalidFields(f, isEmail) - {DeliveryMethod, Address, City, State, PostalCode}
  {
    var g := f.(deliveryMethod := "pickup");
    var a, b := InvalidFields(g, isEmail), InvalidFields(f, isEmail) - {DeliveryMethod, Address, City, State, PostalCode};
    forall x ensures x in a <==> x in b {
      assert x in a <==> !FieldOk(g, isEmail, x);
    }
  }

  /** The expiry month is 01 to 12, the year any two digits: there is no check against today's date. */
  lemma ExpiryMonth(s: string)
    ensures ExpiryOk(s) <==>
      |s| == 5 && s[2] == '/' && AllDigits(s[..2]) && AllDigits(s[3..])
      && 1 <= DigitsValue(s[..2]) <= 12
  {
    if |s| == 5 {
      var mm := s[..2];
      if AllDigits(mm) {
        var m0 := mm[..1];
        assert m0 == [s[0]] && m0[..0] == [] && mm[1] == s[1];
        assert DigitsValue(m0) == DigitValue(s[0]);
        assert DigitsValue(mm) == 10 * DigitValue(s[0]) + DigitValue(s[1]);
      }
      assert AllDigits(s[3..]) <==> IsDigit(s[3]) && IsDigit(s[4]) by {
        assert s[3..][0] == s[3] && s[3..][1] == s[4];
      }
    }
  }

  /** The card number as the placeholder shows it, with spaces, is rejected. */
  lemma SpacedCardRejected()
    ensures !CardNumberOk("4242 4242 4242 4242")
  {
    assert |"4242 4242 4242 4242"| == 19;
  }

  /** The form's initial values: the signed-in user's email, or empty, and delivery. */
  function DefaultForm(user: Option<AuthContext.Identity>): (f: Form)
    ensures f.deliveryMethod == "delivery"
    ensures f.email == if user.Some? then user.value.email else ""
    ensures f.address == "" && f.cardNumber == ""
  {
    Form("delivery", "", "", if user.Some? then user.value.email else "", "", "", "", "", "", "", "")
  }

  /** Which view the page renders. */
  datatype View = EmptyCart | Confirmation | CheckoutForm

  function ViewOf(items: seq<LineItem>, orderPlaced: bool): (v: View)
    ensures v == EmptyCart <==> |items| == 0 && !orderPlaced
    ensures v == Confirmation <==> orderPlaced
  {
    if |items| == 0 && !orderPlaced then EmptyCart
    else if orderPlaced then Confirmation
    else CheckoutForm
  }

  class CheckoutView {
    var orderPlaced: bool
    var isProcessing: bool
    var error: string

    constructor ()
      ensures !orderPlaced && !isProcessing && error == ""
    {
      orderPlaced := false;
      isProcessing := false;
      error := "";
    }

    /**
     * handleSubmit(onSubmit): an invalid form reaches no handler; a valid one
     * clears the cart and places the order.
     */
    method Submit(cart: CartProvider, data: Form, isEmail: string -> bool) returns (submitted: bool)
      modifies this, cart, cart.storage
      ensures submitted <==> FormValid(data, isEmail)
      ensures submitted ==>
        && cart.items == [] && orderPlaced && !isProcessing && error == ""
        && cart.storage.entries == old(cart.storage.entries) - {CartKey}
        && ViewOf(cart.items, orderPlaced) == Confirmation
      ensures !submitted ==>
        cart.items == old(cart.items) && cart.storage.entries == old(cart.storage.entries)
        && orderPlaced == old(orderPlaced) && isProcessing == old(isProcessing) && error == old(error)
      ensures submitted ==> cart.Valid()
    {
      if !FormValid(data, isEmail) {
        return false;
      }
      isProcessing := true;
      error := "";
      cart.Clear();
      orderPlaced := true;
      isProcessing := false;
      return true;
    }
  }
}
