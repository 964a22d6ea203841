/** The checkout page (`app/checkout/page.tsx`): the shipping form, its
    validation into a field-to-message map, the request sent to the checkout
    route, and the order summary. */
module CheckoutPage {
  import opened Common
  import opened CartPage
  import CheckoutRoute
  import Store

  datatype CheckoutForm = CheckoutForm(
    email: string,
    firstName: string,
    lastName: string,
    address: string,
    city: string,
    state: string,
    zip: string,
    country: string)

  /** The form's initial state: every field empty, the country `US`. */
  function InitialForm(): (f: CheckoutForm)
    ensures f.country == "US"
    ensures f.email == f.firstName == f.lastName == f.address == f.city == f.state == f.zip == ""
  {
    CheckoutForm("", "", "", "", "", "", "", "US")
  }

  /** The character class `[^\s@]` holds for every character. */
  predicate NoSpaceOrAt(t: string) {
    forall k :: 0 <= k < |t| ==> !IsJsSpace(t[k]) && t[k] != '@'
  }

  /** `/^[^\s@]+@[^\s@]+\.[^\s@]+$/`, written as the ways the pattern can match:
      a non-empty run, `@`, a non-empty run, `.`, a non-empty run. */
  predicate EmailPattern(s: string) {
    exists i, j :: 0 < i && i + 1 < j < |s| - 1 && s[i] == '@' && s[j] == '.'
      && NoSpaceOrAt(s[..i]) && NoSpaceOrAt(s[i + 1..j]) && NoSpaceOrAt(s[j + 1..])
  }

  /** The plain reading of the pattern: no whitespace, exactly one `@`, not in
      first position, and after it a `.` that is neither right after the `@`
      nor last. */
  predicate EmailShape(s: string) {
    && (forall k :: 0 <= k < |s| ==> !IsJsSpace(s[k]))
    && exists i :: 0 < i < |s| && s[i] == '@'
         && (forall k :: 0 <= k < |s| && k != i ==> s[k] != '@')
         && exists j :: i + 1 < j < |s| - 1 && s[j] == '.'
  }

  lemma EmailPatternHasShape(s: string)
    requires EmailPattern(s)
    ensures EmailShape(s)
  {
    var i, j :| 0 < i && i + 1 < j < |s| - 1 && s[i] == '@' && s[j] == '.'
      && NoSpaceOrAt(s[..i]) && NoSpaceOrAt(s[i + 1..j]) && NoSpaceOrAt(s[j + 1..]);
    forall k | 0 <= k < |s| && k != i
      ensures !IsJsSpace(s[k]) && s[k] != '@'
    {
      if k < i {
        assert s[k] == s[..i][k];
      } else if k < j {
        assert s[k] == s[i + 1..j][k - i - 1];
      } else if k > j {
        assert s[k] == s[j + 1..][k - j - 1];
      }
    }
  }

  lemma EmailShapeMatchesPattern(s: string)
    requires EmailShape(s)
    ensures EmailPattern(s)
  {
    var i :| 0 < i < |s| && s[i] == '@'
      && (forall k :: 0 <= k < |s| && k != i ==> s[k] != '@')
      && exists j :: i + 1 < j < |s| - 1 && s[j] == '.';
    var j :| i + 1 < j < |s| - 1 && s[j] == '.';
    assert NoSpaceOrAt(s[..i]);
    var middle, last := s[i + 1..j], s[j + 1..];
    forall k | 0 <= k < |middle| ensures !IsJsSpace(middle[k]) && middle[k] != '@' {
      assert middle[k] == s[k + i + 1];
    }
    forall k | 0 <= k < |last| ensures !IsJsSpace(last[k]) && last[k] != '@' {
      assert last[k] == s[k + j + 1];
    }
  }

  /** The email pattern, read both ways. */
  lemma EmailPatternIffShape(s: string)
    ensures EmailPattern(s) <==> EmailShape(s)
  {
    if EmailPattern(s) {
      EmailPatternHasShape(s);
    }
    if EmailShape(s) {
      EmailShapeMatchesPattern(s);
    }
  }

  predicate AllDigits(t: string) {
    forall k :: 0 <= k < |t| ==> IsDigit(t[k])
  }

  /** `/^\d{5}(-\d{4})?$/`: five digits, optionally followed by `-` and four digits. */
  predicate ZipPattern(z: string) {
    || (|z| == 5 && AllDigits(z))
    || (|z| == 10 && AllDigits(z[..5]) && z[5] == '-' && AllDigits(z[6..]))
  }

  /** Every rule of the form holds. */
  predicate FormValid(f: CheckoutForm) {
    && f.email != "" && EmailPattern(f.email)
    && f.firstName != "" && f.lastName != "" && f.address != ""
    && f.city != "" && f.state != ""
    && f.zip != "" && ZipPattern(f.zip)
  }

  /** The body posted to the checkout route. */
  datatype Address = Address(line1: string, city: string, state: string, postalCode: string, country: string)
  datatype Shipping = Shipping(name: string, address: Address)
  datatype RequestBody = RequestBody(items: seq<CheckoutRoute.CartLine>, email: string, shipping: Shipping)

  /** `cart.map(({ product, variant, ...item }) => item)`: the stored fields of each line. */
  function RequestItems(cart: seq<CartEntry>): (r: seq<CheckoutRoute.CartLine>)
    ensures |r| == |cart|
    ensures forall i :: 0 <= i < |cart| ==>
      r[i] == CheckoutRoute.CartLine(cart[i].line.productId, cart[i].line.variantId, cart[i].line.quantity)
  {
    seq(|cart|, i requires 0 <= i < |cart| =>
      CheckoutRoute.CartLine(cart[i].line.productId, cart[i].line.variantId, cart[i].line.quantity))
  }

  /** The request body: the name is first and last name joined by one space;
      the address fields go to `line1`, `city`, `state`, `postal_code`, `country`. */
  function Body(f: CheckoutForm, cart: seq<CartEntry>): RequestBody {
    RequestBody(RequestItems(cart), f.email,
      Shipping(f.firstName + " " + f.lastName, Address(f.address, f.city, f.state, f.zip, f.country)))
  }

  /** The name sent splits back into the two fields at the space after the
      first name: nothing of either field is lost. */
  lemma ShippingNameSplits(f: CheckoutForm)
    ensures var name := Body(f, []).shipping.name;
            |name| == |f.firstName| + 1 + |f.lastName|
            && name[..|f.firstName|] == f.firstName
            && name[|f.firstName|] == ' '
            && name[|f.firstName| + 1..] == f.lastName
  {
    var name := f.firstName + " " + f.lastName;
    assert name[..|f.firstName|] == f.firstName;
    assert name[|f.firstName| + 1..] == f.lastName;
  }

  /** A request sent for a valid form and a non-empty cart gets past the
      route's empty-cart and missing-email checks. */
  lemma ValidBodyPassesRouteGuards(f: CheckoutForm, cart: seq<CartEntry>)
    requires FormValid(f) && cart != []
    ensures Body(f, cart).items != [] && Body(f, cart).email != ""
  {
    assert |Body(f, cart).items| == |cart|;
  }

  datatype LoadResult = RedirectTo(path: string) | ShowCart(lines: seq<StoredLine>)

  /** Loading the page: an empty stored cart sends the browser to `/cart`. */
  function LoadCart(stored: seq<StoredLine>): (r: LoadResult)
    ensures r.RedirectTo? <==> stored == []
    ensures r.RedirectTo? ==> r.path == "/cart"
    ensures r.ShowCart? ==> r.lines == stored
  {
    if |stored| == 0 then RedirectTo("/cart") else ShowCart(stored)
  }

  /** The keys of the error map: one per form field that has a rule. */
  datatype Field = EmailField | FirstName | LastName | AddressField | City | State | Zip

  /** What is wrong with a field: it is empty, or it does not match its pattern. */
  datatype Problem = Required | Malformed

  /** The text the page shows under a field for its problem. */
  function Message(k: Field, p: Problem): string {
    match (k, p)
    case (EmailField, Required) => "Email is required"
    case (EmailField, Malformed) => "Please enter a valid email address"
    case (FirstName, _) => "First name is required"
    case (LastName, _) => "Last name is required"
    case (AddressField, _) => "Address is required"
    case (City, _) => "City is required"
    case (State, _) => "State is required"
    case (Zip, Required) => "ZIP code is required"
    case (Zip, Malformed) => "Please enter a valid ZIP code"
  }

  /** The rules of `validateForm` for the contact section: the email field
      carries an error exactly when it is empty or malformed. */
  predicate ContactRules(f: CheckoutForm, errors: map<Field, Problem>) {
    && (EmailField in errors <==> f.email == "" || !EmailPattern(f.email))
    && (f.email == "" ==> EmailField in errors && errors[EmailField] == Required)
    && (f.email != "" && !EmailPattern(f.email) ==> EmailField in errors && errors[EmailField] == Malformed)
  }

  /** The rules for the shipping-address section: each name and address field
      carries an error exactly when it is empty, the ZIP field also when it is
      malformed. */
  predicate AddressRules(f: CheckoutForm, errors: map<Field, Problem>) {
    && (FirstName in errors <==> f.firstName == "") && (FirstName in errors ==> errors[FirstName] == Required)
    && (LastName in errors <==> f.lastName == "") && (LastName in errors ==> errors[LastName] == Required)
    && (AddressField in errors <==> f.address == "") && (AddressField in errors ==> errors[AddressField] == Required)
    && (City in errors <==> f.city == "") && (City in errors ==> errors[City] == Required)
    && (State in errors <==> f.state == "") && (State in errors ==> errors[State] == Required)
    && (Zip in errors <==> f.zip == "" || !ZipPattern(f.zip))
    && (f.zip == "" ==> Zip in errors && errors[Zip] == Required)
    && (f.zip != "" && !ZipPattern(f.zip) ==> Zip in errors && errors[Zip] == Malformed)
  }

  predicate ErrorRules(f: CheckoutForm, errors: map<Field, Problem>) {
    ContactRules(f, errors) && AddressRules(f, errors)
  }

  /** The error map of `validateForm`, filled field by field. */
  method CollectErrors(form: CheckoutForm) returns (errors: map<Field, Problem>)
    ensures ErrorRules(form, errors)
  {
    errors := map[];
    if form.email == "" {
      errors := errors[EmailField := Required];
    } else if !EmailPattern(form.email) {
      errors := errors[EmailField := Malformed];
    }
    errors := CollectAddressErrors(form, errors);
  }

  /** The shipping-address half of `validateForm`, adding to `errors` and
      leaving its email entry as it was. */
  method CollectAddressErrors(form: CheckoutForm, errors: map<Field, Problem>) returns (r: map<Field, Problem>)
    requires errors.Keys <= {EmailField}
    ensures AddressRules(form, r)
    ensures EmailField in r <==> EmailField in errors
    ensures EmailField in errors ==> r[EmailField] == errors[EmailField]
  {
    r := errors;
    if form.firstName == "" {
      r := r[FirstName := Required];
    }
    if form.lastName == "" {
      r := r[LastName := Required];
    }
    if form.address == "" {
      r := r[AddressField := Required];
    }
    if form.city == "" {
      r := r[City := Required];
    }
    if form.state == "" {
      r := r[State := Required];
    }
    if form.zip == "" {
      r := r[Zip := Required];
    } else if !ZipPattern(form.zip) {
      r := r[Zip := Malformed];
    }
  }

  /** The form is accepted exactly when no field has an error. */
  lemma NoErrorsIffValid(f: CheckoutForm, errors: map<Field, Problem>)
    requires ErrorRules(f, errors)
    ensures errors == map[] <==> FormValid(f)
  {
    if FormValid(f) {
      forall k | k in errors ensures false {
        match k
        case EmailField =>
        case FirstName =>
        case LastName =>
        case AddressField =>
        case City =>
        case State =>
        case Zip =>
      }
    }
  }

  /** The page's state. */
  class CheckoutView {
    var cart: seq<CartEntry>
    var form: CheckoutForm
    var errors: map<Field, Problem>
    var processing: bool

    constructor (cart: seq<CartEntry>)
      ensures this.cart == cart && form == InitialForm() && errors == map[] && !processing
    {
      this.cart := cart;
      form := InitialForm();
      errors := map[];
      processing := false;
    }

    /** `validateForm`: fills the error map field by field, stores it, and
        reports whether it stayed empty. The map records each failing field's
        problem; the text shown for it is `Message(field, problem)`. */
    method ValidateForm() returns (valid: bool)
      modifies this
      ensures cart == old(cart) && form == old(form) && processing == old(processing)
      ensures ErrorRules(form, errors)
      ensures valid <==> errors == map[]
      ensures valid <==> FormValid(form)
    {
      var newErrors := CollectErrors(form);
      errors := newErrors;
      valid := newErrors == map[];
      NoErrorsIffValid(form, newErrors);
    }

    /** `handleSubmit`. `responseUrl` is the `url` of the route's JSON answer
        (absent on an error or when the request throws). An invalid form sends
        nothing; otherwise the body is sent, a truthy url is followed (the page
        stays processing while the browser leaves), and anything else ends
        processing. */
    method HandleSubmit(responseUrl: Option<string>) returns (request: Option<RequestBody>, navigateTo: Option<string>)
      modifies this
      ensures cart == old(cart) && form == old(form)
      ensures request.Some? <==> FormValid(form)
      ensures errors == map[] <==> FormValid(form)
      ensures ErrorRules(form, errors)
      ensures !FormValid(form) ==> navigateTo.None? && processing == old(processing)
      ensures FormValid(form) ==> request == Some(Body(form, cart))
      ensures FormValid(form) && StrTruthy(responseUrl) ==> navigateTo == responseUrl && processing
      ensures FormValid(form) && !StrTruthy(responseUrl) ==> navigateTo.None? && !processing
    {
      var valid := ValidateForm();
      if !valid {
        return None, None;
      }
      processing := true;
      request := Some(Body(form, cart));
      if StrTruthy(responseUrl) {
        navigateTo := responseUrl;
      } else {
        navigateTo := None;
        processing := false;
      }
    }
  }

  /** The checkout page's summary is the cart page's: the same `reduce` over
      the display prices, and a total that is the subtotal, shipping being
      left to the payment page. The sum is taken line by line, in cart order. */
  lemma {:induction false} CheckoutSummaryIsCartSubtotal(cart: seq<CartEntry>)
    ensures var s := OrderSummary(cart);
            s.total == s.subtotal && s.subtotal == Subtotal(cart)
    ensures cart != [] ==> OrderSummary(cart).subtotal == LineTotal(cart[0]) + Subtotal(cart[1..])
  {
    if cart != [] {
      SubtotalSplit(cart, 0);
      assert cart[..0] == [];
    }
  }

  /** The summary shows the cart page's subtotal, with its `||` fallback, while
      the route charges `variant.price ?? product.basePrice`. For a variant
      priced 0 the two part: the page shows the base price, the route charges
      nothing for the line. */
  lemma DisplayedSubtotalCanDifferFromCharged()
    ensures var products := map[1 := Store.Product("Tee", "tee", None, 1500, true, None)];
            var variants := map[7 := Store.Variant(1, "Small", Some(0), 5, true)];
            var line := CheckoutRoute.CartLine(1, Some(7), 1);
            var entry := CartEntry(StoredLine(1, Some(7), 1), Some(ProductInfo("Tee", 1500, "[]")), Some(VariantInfo("Small", Some(0))));
            && CheckoutRoute.AllValid(products, variants, [line])
            && OrderSummary([entry]).total == 1500
            && CheckoutRoute.Subtotal(products, variants, [line]) == 0
  {
    var products := map[1 := Store.Product("Tee", "tee", None, 1500, true, None)];
    var variants := map[7 := Store.Variant(1, "Small", Some(0), 5, true)];
    var line := CheckoutRoute.CartLine(1, Some(7), 1);
    var entry := CartEntry(StoredLine(1, Some(7), 1), Some(ProductInfo("Tee", 1500, "[]")), Some(VariantInfo("Small", Some(0))));
    assert CheckoutRoute.LineValid(products, variants, line);
    assert CheckoutRoute.AllValid(products, variants, [line]);
    assert [line][..0] == [];
    assert CheckoutRoute.UnitPrice(products, variants, line) == 0;
    assert [entry][..0] == [];
    assert DisplayPrice(entry) == 1500;
  }
}
