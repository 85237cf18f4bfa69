/**
 * The checkout page, src/pages/CheckoutPage.tsx: the initial form, the form
 * validation (required fields, then the email pattern) and `handleCheckout`,
 * which turns a valid form and a non-empty cart into an order.
 */
module Checkout {
  import opened Types
  import opened Text
  import opened CartStore

  datatype CheckoutForm = CheckoutForm(
    firstName: string, lastName: string, email: string, address: string, city: string,
    state: string, postalCode: string, country: string, phone: string)

  /** The form as the page first shows it: the signed-in user's email, country "US". */
  function InitialCheckoutForm(user: Option<User>): CheckoutForm {
    CheckoutForm("", "", if user.Some? then user.value.email else "", "", "", "", "", "US", "")
  }

  /** The fields `validateForm` requires, in the order it checks them; `phone` is not among them. */
  function RequiredValues(f: CheckoutForm): seq<string> {
    [f.firstName, f.lastName, f.email, f.address, f.city, f.state, f.postalCode, f.country]
  }

  // ---------------------------------------------------------------- the email pattern

  /** The characters `[^\s@]` matches, at every position in `[lo, hi)`. */
  ghost predicate PlainRun(s: string, lo: int, hi: int)
    requires 0 <= lo <= hi <= |s|
  {
    forall k :: lo <= k < hi ==> !IsSpace(s[k]) && s[k] != '@'
  }

  /**
   * `/^[^\s@]+@[^\s@]+\.[^\s@]+$/.test(s)`: `s` splits into three non-empty
   * runs of characters that are neither white space nor '@', joined by '@'
   * and then by '.'.
   */
  ghost predicate EmailPatternMatches(s: string) {
    exists i, j :: 0 < i && i + 1 < j && j + 1 < |s| && s[i] == '@' && s[j] == '.'
      && PlainRun(s, 0, i) && PlainRun(s, i + 1, j) && PlainRun(s, j + 1, |s|)
  }

  /** Position of the first '@' (|s| when there is none). */
  function FirstAt(s: string): (k: nat)
    ensures k <= |s|
    ensures k < |s| ==> s[k] == '@'
    ensures forall j :: 0 <= j < k ==> s[j] != '@'
  {
    if s == [] then 0
    else if s[0] == '@' then 0
    else 1 + FirstAt(s[1..])
  }

  /**
   * The shape the pattern asks for, read directly: no white space, exactly one
   * '@', not first, and a '.' in the domain that is neither its first nor its
   * last character.
   */
  predicate EmailShapeOk(s: string) {
    var at := FirstAt(s);
    0 < at < |s|
    && (forall k :: 0 <= k < |s| ==> !IsSpace(s[k]))
    && (forall k :: at < k < |s| ==> s[k] != '@')
    && (exists j :: at + 1 < j < |s| - 1 && s[j] == '.')
  }

  /** The direct reading and the regular expression accept the same strings. */
  lemma EmailShapeIffPattern(s: string)
    ensures EmailShapeOk(s) <==> EmailPatternMatches(s)
  {
    if EmailPatternMatches(s) {
      PatternGivesShape(s);
    }
    if EmailShapeOk(s) {
      var i := FirstAt(s);
      var j :| i + 1 < j < |s| - 1 && s[j] == '.';
      assert PlainRun(s, 0, i) && PlainRun(s, i + 1, j) && PlainRun(s, j + 1, |s|);
    }
  }

  lemma PatternGivesShape(s: string)
    requires EmailPatternMatches(s)
    ensures EmailShapeOk(s)
  {
    var i, j :| 0 < i && i + 1 < j && j + 1 < |s| && s[i] == '@' && s[j] == '.'
      && PlainRun(s, 0, i) && PlainRun(s, i + 1, j) && PlainRun(s, j + 1, |s|);
    assert FirstAt(s) == i;
    forall k | 0 <= k < |s| ensures !IsSpace(s[k]) {
      if k < i {
        assert PlainRun(s, 0, i);
      } else if k == i || k == j {
      } else if k < j {
        assert PlainRun(s, i + 1, j);
      } else {
        assert PlainRun(s, j + 1, |s|);
      }
    }
    assert forall k :: i < k < |s| ==> s[k] != '@';
  }

  // ---------------------------------------------------------------- validateForm

  /** The toast `validateForm` shows, or `Ready`. */
  datatype FormCheck = MissingInformation | InvalidEmail | Ready

  function CheckoutCheck(f: CheckoutForm): FormCheck {
    if "" in RequiredValues(f) then MissingInformation
    else if !EmailShapeOk(f.email) then InvalidEmail
    else Ready
  }

  /** `validateForm`: the required fields one by one, stopping at the first empty one, then the email. */
  method ValidateForm(f: CheckoutForm) returns (r: FormCheck)
    ensures r == CheckoutCheck(f)
  {
    var required := RequiredValues(f);
    var i := 0;
    while i < |required|
      invariant 0 <= i <= |required|
      invariant "" !in required[..i]
    {
      if required[i] == "" {
        return MissingInformation;
      }
      i := i + 1;
    }
    assert required[..i] == required;
    if !EmailShapeOk(f.email) {
      return InvalidEmail;
    }
    return Ready;
  }

  /**
   * The form passes exactly when the eight required fields are filled in and
   * the email matches the pattern; a missing field is reported before a bad
   * email, and the phone number plays no part.
   */
  lemma CheckoutCheckMeaning(f: CheckoutForm, phone: string)
    ensures CheckoutCheck(f) == Ready <==>
      f.firstName != "" && f.lastName != "" && f.email != "" && f.address != "" && f.city != ""
      && f.state != "" && f.postalCode != "" && f.country != "" && EmailPatternMatches(f.email)
    ensures CheckoutCheck(f) == MissingInformation <==> exists k :: 0 <= k < 8 && RequiredValues(f)[k] == ""
    ensures CheckoutCheck(f) == InvalidEmail <==> "" !in RequiredValues(f) && !EmailPatternMatches(f.email)
    ensures CheckoutCheck(f.(phone := phone)) == CheckoutCheck(f)
  {
    EmailShapeIffPattern(f.email);
    assert f.email == RequiredValues(f)[2];
  }

  /** An untouched form is never accepted: the names and the address are still empty. */
  lemma InitialFormIncomplete(user: Option<User>)
    ensures CheckoutCheck(InitialCheckoutForm(user)) == MissingInformation
    ensures InitialCheckoutForm(user).country == "US"
  {
    assert RequiredValues(InitialCheckoutForm(user))[0] == "";
  }

  // ---------------------------------------------------------------- handleCheckout

  /** The arguments of the `createOrder` call. */
  datatype OrderRequest = OrderRequest(
    userId: string, items: seq<CartLine>, total: real, shippingAddress: ShippingAddress, paymentIntentId: string)

  /** The shipping address built from the form: the name is first and last name joined by a space. */
  function ShippingFor(f: CheckoutForm): ShippingAddress {
    ShippingAddress(f.firstName + " " + f.lastName, f.address, f.city, f.state, f.postalCode, f.country)
  }

  /** The order a signed-in user's checkout records: the current cart, its total, and a simulated payment. */
  function OrderFor(user: User, lines: seq<CartLine>, f: CheckoutForm): OrderRequest {
    OrderRequest(user.id, lines, Total(lines), ShippingFor(f), "pi_simulated")
  }

  datatype CheckoutOutcome =
    | Rejected(check: FormCheck)
    | EmptyCart
    | Placed(orderId: string, order: Option<OrderRequest>)
    | CheckoutFailed(attempted: OrderRequest)

  /**
   * `handleCheckout`. `orderId` stands for the `ord-<timestamp>` id and
   * `createOrderThrows` for a failure of the order service. An order is
   * recorded only for a signed-in user; the cart is emptied only when the
   * checkout goes through.
   */
  method HandleCheckout(cart: Cart, form: CheckoutForm, user: Option<User>, orderId: string, createOrderThrows: bool)
    returns (outcome: CheckoutOutcome)
    modifies cart
    ensures CheckoutCheck(form) != Ready ==> outcome == Rejected(CheckoutCheck(form))
    ensures CheckoutCheck(form) == Ready && old(cart.lines) == [] ==> outcome == EmptyCart
    ensures CheckoutCheck(form) == Ready && old(cart.lines) != [] ==>
      if user.Some? && createOrderThrows then outcome == CheckoutFailed(OrderFor(user.value, old(cart.lines), form))
      else outcome == Placed(orderId, if user.Some? then Some(OrderFor(user.value, old(cart.lines), form)) else None)
    ensures outcome.Placed? ==> cart.lines == []
    ensures !outcome.Placed? ==> cart.lines == old(cart.lines)
  {
    var check := ValidateForm(form);
    if check != Ready {
      return Rejected(check);
    }
    if cart.lines == [] {
      return EmptyCart;
    }
    var order: Option<OrderRequest> := None;
    if user.Some? {
      var request := OrderFor(user.value, cart.lines, form);
      if createOrderThrows {
        return CheckoutFailed(request);
      }
      order := Some(request);
    }
    cart.ClearCart();
    return Placed(orderId, order);
  }
}
