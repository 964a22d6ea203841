/** `POST /api/checkout`: validates the cart against the catalog, prices every
    line on the server, creates a `pending` order whose session id is the
    placeholder `""`, asks the payment provider for a checkout session and then
    writes that session's id into the order. */
module CheckoutRoute {
  import opened Common
  import opened Store

  /** A line of the request body. It carries no price: the server never reads one. */
  datatype CartLine = CartLine(productId: int, variantId: Option<int>, quantity: int)

  /** What the shipping calculator answers for a subtotal. */
  datatype ShippingQuote = ShippingQuote(amountCents: int, labelText: string)

  /** What the payment provider answers when a checkout session is created. */
  datatype Session = Session(id: string, url: string)

  /** A `line_items` entry sent to the provider (currency `usd`). */
  datatype LineItem = LineItem(name: string, unitAmount: int, quantity: int)

  datatype CheckoutError =
    | CartEmpty
    | EmailRequired
    | ProductUnavailable(productId: int)
    | VariantUnavailable(variantId: int)
    | InsufficientStock(variantName: string)
    | InternalError

  datatype CheckoutResponse = Started(sessionId: string, url: string) | Refused(error: CheckoutError)

  function HttpStatus(r: CheckoutResponse): (code: int)
    ensures code == 200 <==> r.Started?
    ensures code == 500 <==> r == Refused(InternalError)
    ensures code == 400 <==> r.Refused? && r.error != InternalError
  {
    match r
    case Started(_, _) => 200
    case Refused(InternalError) => 500
    case Refused(_) => 400
  }

  /** `product.variants.find(v => v.id === variantId)`. */
  function FindVariant(variants: map<int, Variant>, productId: int, variantId: int): (r: Option<Variant>)
    ensures r.Some? <==> variantId in variants && variants[variantId].productId == productId
    ensures r.Some? ==> r.value == variants[variantId]
  {
    if variantId in variants && variants[variantId].productId == productId then Some(variants[variantId]) else None
  }

  /** The checks the first loop makes on one line, in their order. */
  function LineError(products: map<int, Product>, variants: map<int, Variant>, line: CartLine): Option<CheckoutError> {
    if line.productId !in products || !products[line.productId].isActive then
      Some(ProductUnavailable(line.productId))
    else if IntTruthy(line.variantId) then
      match FindVariant(variants, line.productId, line.variantId.value)
      case None => Some(VariantUnavailable(line.variantId.value))
      case Some(v) =>
        if !v.isActive then Some(VariantUnavailable(line.variantId.value))
        else if v.stock < line.quantity then Some(InsufficientStock(v.name))
        else None
    else None
  }

  predicate LineValid(products: map<int, Product>, variants: map<int, Variant>, line: CartLine) {
    LineError(products, variants, line).None?
  }

  predicate AllValid(products: map<int, Product>, variants: map<int, Variant>, cart: seq<CartLine>) {
    forall i :: 0 <= i < |cart| ==> LineValid(products, variants, cart[i])
  }

  /** The error the first loop returns: that of the first failing line in cart order. */
  function FirstError(products: map<int, Product>, variants: map<int, Variant>, cart: seq<CartLine>): (r: Option<CheckoutError>)
    ensures r.None? <==> AllValid(products, variants, cart)
  {
    if cart == [] then None
    else
      var before := FirstError(products, variants, cart[..|cart| - 1]);
      if before.Some? then before else LineError(products, variants, cart[|cart| - 1])
  }

  /** Unit price in the first loop: `variant?.price ?? product.basePrice`. */
  function UnitPrice(products: map<int, Product>, variants: map<int, Variant>, line: CartLine): int
    requires LineValid(products, variants, line)
  {
    var product := products[line.productId];
    if IntTruthy(line.variantId) then OrElse(FindVariant(variants, line.productId, line.variantId.value).value.price, product.basePrice)
    else product.basePrice
  }

  function LineItemFor(products: map<int, Product>, variants: map<int, Variant>, line: CartLine): LineItem
    requires LineValid(products, variants, line)
  {
    var product := products[line.productId];
    var suffix := if IntTruthy(line.variantId) then " - " + FindVariant(variants, line.productId, line.variantId.value).value.name else "";
    LineItem(product.name + suffix, UnitPrice(products, variants, line), line.quantity)
  }

  function LineItems(products: map<int, Product>, variants: map<int, Variant>, cart: seq<CartLine>): (r: seq<LineItem>)
    requires AllValid(products, variants, cart)
    ensures |r| == |cart|
  {
    seq(|cart|, i requires 0 <= i < |cart| => LineItemFor(products, variants, cart[i]))
  }

  /** `subtotalCents`: the sum of unit price times quantity over the cart. */
  function Subtotal(products: map<int, Product>, variants: map<int, Variant>, cart: seq<CartLine>): int
    requires AllValid(products, variants, cart)
  {
    if cart == [] then 0
    else Subtotal(products, variants, cart[..|cart| - 1])
         + UnitPrice(products, variants, cart[|cart| - 1]) * cart[|cart| - 1].quantity
  }

  function ShippingLine(quote: ShippingQuote): LineItem {
    LineItem(quote.labelText, quote.amountCents, 1)
  }

  /** All `line_items` of the session: one per cart line, then the shipping line
      when shipping costs something. */
  function SessionLineItems(products: map<int, Product>, variants: map<int, Variant>, cart: seq<CartLine>,
                            quote: ShippingQuote): (r: seq<LineItem>)
    requires AllValid(products, variants, cart)
    ensures |r| == |cart| + 1 <==> quote.amountCents > 0
    ensures |r| == |cart| || |r| == |cart| + 1
    ensures r[..|cart|] == LineItems(products, variants, cart)
    ensures |r| > |cart| ==> r[|cart|] == ShippingLine(quote)
  {
    LineItems(products, variants, cart) + if quote.amountCents > 0 then [ShippingLine(quote)] else []
  }

  /** Unit price in the second loop, which reads the catalog again and falls back
      further: `variant?.price ?? product?.basePrice ?? 0`. */
  function SnapshotPrice(products: map<int, Product>, variants: map<int, Variant>, line: CartLine): int {
    var product := if line.productId in products then Some(products[line.productId]) else None;
    var variant := if IntTruthy(line.variantId) && product.Some?
                   then FindVariant(variants, line.productId, line.variantId.value) else None;
    if variant.Some? && variant.value.price.Some? then variant.value.price.value
    else if product.Some? then product.value.basePrice
    else 0
  }

  function OrderItemFor(products: map<int, Product>, variants: map<int, Variant>, line: CartLine): OrderItem {
    OrderItem(line.productId, IntOrNull(line.variantId), line.quantity, SnapshotPrice(products, variants, line))
  }

  function OrderItems(products: map<int, Product>, variants: map<int, Variant>, cart: seq<CartLine>): (r: seq<OrderItem>)
    ensures |r| == |cart|
  {
    seq(|cart|, i requires 0 <= i < |cart| => OrderItemFor(products, variants, cart[i]))
  }

  /** The row `prisma.order.create` inserts. */
  function PendingOrder(userId: Option<int>, email: string, totalCents: int, items: seq<OrderItem>): Order {
    Order(userId, email, totalCents, "usd", Pending, "", None, None, None, items)
  }

  /** `Σ unitPriceCents × quantity` over the items of an order. */
  function ItemsTotal(items: seq<OrderItem>): int {
    if items == [] then 0
    else ItemsTotal(items[..|items| - 1]) + items[|items| - 1].unitPriceCents * items[|items| - 1].quantity
  }

  /** The price the second loop snapshots equals the price the first loop charged. */
  lemma SnapshotPriceIsUnitPrice(products: map<int, Product>, variants: map<int, Variant>, line: CartLine)
    requires LineValid(products, variants, line)
    ensures SnapshotPrice(products, variants, line) == UnitPrice(products, variants, line)
  {
  }

  /** Each order item copies its line's product, quantity and charged unit price,
      with a falsy variant id stored as null. */
  lemma OrderItemsMatchLineItems(products: map<int, Product>, variants: map<int, Variant>, cart: seq<CartLine>)
    requires AllValid(products, variants, cart)
    ensures forall i :: 0 <= i < |cart| ==>
      var item := OrderItems(products, variants, cart)[i];
      var line := LineItems(products, variants, cart)[i];
      && item.unitPriceCents == line.unitAmount
      && item.quantity == line.quantity == cart[i].quantity
      && item.productId == cart[i].productId
      && item.variantId == IntOrNull(cart[i].variantId)
  {
    forall i | 0 <= i < |cart|
      ensures OrderItems(products, variants, cart)[i].unitPriceCents == LineItems(products, variants, cart)[i].unitAmount
    {
      SnapshotPriceIsUnitPrice(products, variants, cart[i]);
    }
  }

  /** The order's items add up to the subtotal that was charged. */
  lemma {:induction false} ItemsTotalIsSubtotal(products: map<int, Product>, variants: map<int, Variant>, cart: seq<CartLine>)
    requires AllValid(products, variants, cart)
    ensures ItemsTotal(OrderItems(products, variants, cart)) == Subtotal(products, variants, cart)
  {
    if cart != [] {
      var n := |cart| - 1;
      var items := OrderItems(products, variants, cart);
      assert items[..n] == OrderItems(products, variants, cart[..n]);
      ItemsTotalIsSubtotal(products, variants, cart[..n]);
      SnapshotPriceIsUnitPrice(products, variants, cart[n]);
    }
  }

  /** A line that fails after a valid prefix decides the error of the whole cart. */
  lemma {:induction false} FirstErrorAt(products: map<int, Product>, variants: map<int, Variant>, cart: seq<CartLine>, k: nat)
    requires k < |cart|
    requires AllValid(products, variants, cart[..k])
    requires LineError(products, variants, cart[k]).Some?
    ensures FirstError(products, variants, cart) == LineError(products, variants, cart[k])
  {
    var n := |cart| - 1;
    if k < n {
      assert cart[..n][..k] == cart[..k];
      FirstErrorAt(products, variants, cart[..n], k);
    } else {
      assert cart[..n] == cart[..k];
    }
  }

  /** A refused cart is refused for the error of its first failing line, every
      line before which passed. */
  lemma {:induction false} FirstErrorLocated(products: map<int, Product>, variants: map<int, Variant>, cart: seq<CartLine>)
    requires !AllValid(products, variants, cart)
    ensures exists k :: 0 <= k < |cart| && AllValid(products, variants, cart[..k])
                        && LineError(products, variants, cart[k]) == FirstError(products, variants, cart)
  {
    var n := |cart| - 1;
    if AllValid(products, variants, cart[..n]) {
      assert LineError(products, variants, cart[n]) == FirstError(products, variants, cart);
    } else {
      FirstErrorLocated(products, variants, cart[..n]);
      var k :| 0 <= k < n && AllValid(products, variants, cart[..n][..k])
               && LineError(products, variants, cart[..n][k]) == FirstError(products, variants, cart[..n]);
      assert cart[..n][..k] == cart[..k];
    }
  }

  /** A session creation that fails leaves the inserted order holding the
      placeholder `""`. Nothing in the store clears it, so every later
      checkout that reaches the insert finds the placeholder taken and is
      answered with 500. */
  lemma {:induction false} FailedSessionBlocksLaterCheckouts(orders: seq<Order>, userId: Option<int>, email: string,
                                                             totalCents: int, items: seq<OrderItem>, later: seq<Order>)
    ensures SessionIdTaken(orders + [PendingOrder(userId, email, totalCents, items)] + later, "")
  {
    var all := orders + [PendingOrder(userId, email, totalCents, items)] + later;
    assert all[|orders|].stripeSessionId == "";
  }

  /** A started checkout replaces the placeholder with the session's id, so
      it leaves the next checkout's insert free. */
  lemma {:induction false} StartedCheckoutFreesPlaceholder(orders: seq<Order>, placed: Order, sid: string)
    requires !SessionIdTaken(orders, "") && sid != ""
    ensures !SessionIdTaken(orders + [placed.(stripeSessionId := sid)], "")
  {
    var all := orders + [placed.(stripeSessionId := sid)];
    forall k | 0 <= k < |all|
      ensures all[k].stripeSessionId != ""
    {
      if k < |orders| {
        assert all[k] == orders[k];
      }
    }
  }

  /** The first loop: each line is checked in cart order, priced, and turned
      into a provider line item; the first failing line ends the loop. */
  method PriceCart(products: map<int, Product>, variants: map<int, Variant>, cart: seq<CartLine>)
    returns (error: Option<CheckoutError>, subtotalCents: int, lineItems: seq<LineItem>)
    ensures error.None? <==> AllValid(products, variants, cart)
    ensures error.Some? ==> error == FirstError(products, variants, cart)
    ensures error.None? ==> subtotalCents == Subtotal(products, variants, cart)
    ensures error.None? ==> lineItems == LineItems(products, variants, cart)
  {
    error, subtotalCents, lineItems := None, 0, [];
    var k := 0;
    while k < |cart|
      invariant 0 <= k <= |cart|
      invariant AllValid(products, variants, cart[..k])
      invariant subtotalCents == Subtotal(products, variants, cart[..k])
      invariant lineItems == LineItems(products, variants, cart[..k])
    {
      var item := cart[k];
      if item.productId !in products || !products[item.productId].isActive {
        FirstErrorAt(products, variants, cart, k);
        return Some(ProductUnavailable(item.productId)), subtotalCents, lineItems;
      }
      var product := products[item.productId];
      var variant: Option<Variant> := None;
      if IntTruthy(item.variantId) {
        variant := FindVariant(variants, item.productId, item.variantId.value);
        if variant.None? || !variant.value.isActive {
          FirstErrorAt(products, variants, cart, k);
          return Some(VariantUnavailable(item.variantId.value)), subtotalCents, lineItems;
        }
        if variant.value.stock < item.quantity {
          FirstErrorAt(products, variants, cart, k);
          return Some(InsufficientStock(variant.value.name)), subtotalCents, lineItems;
        }
      }
      var unitPrice := if variant.Some? then OrElse(variant.value.price, product.basePrice) else product.basePrice;
      subtotalCents := subtotalCents + unitPrice * item.quantity;
      var name := product.name + if variant.Some? then " - " + variant.value.name else "";
      lineItems := lineItems + [LineItem(name, unitPrice, item.quantity)];
      assert cart[..k + 1][..k] == cart[..k];
      k := k + 1;
    }
    assert cart[..k] == cart;
  }

  /** The second loop: the order item of every line, with its price read again. */
  method CollectOrderItems(products: map<int, Product>, variants: map<int, Variant>, cart: seq<CartLine>)
    returns (orderItemsData: seq<OrderItem>)
    ensures orderItemsData == OrderItems(products, variants, cart)
  {
    orderItemsData := [];
    var j := 0;
    while j < |cart|
      invariant 0 <= j <= |cart|
      invariant orderItemsData == OrderItems(products, variants, cart[..j])
    {
      var item := cart[j];
      var product := if item.productId in products then Some(products[item.productId]) else None;
      var variant := if IntTruthy(item.variantId) && product.Some?
                     then FindVariant(variants, item.productId, item.variantId.value) else None;
      var priceCents := if variant.Some? && variant.value.price.Some? then variant.value.price.value
                        else if product.Some? then product.value.basePrice else 0;
      orderItemsData := orderItemsData + [OrderItem(item.productId, IntOrNull(item.variantId), item.quantity, priceCents)];
      j := j + 1;
    }
    assert cart[..j] == cart;
  }

  /** The fields of the request body the route reads: `items` (`None` when
      missing or not an array) and `email` (a missing one reads as `""`). */
  datatype CheckoutBody = CheckoutBody(items: Option<seq<CartLine>>, email: string)

  /** The whole checkout. `body` is `None` when `request.json()` throws, which
      the `catch` answers with 500. `calculateShipping`, `getCurrentUser` and
      the session creation are foreign: the first is a function of the
      subtotal, the other two are the answers they give (`None` for a session
      creation that throws). */
  method Checkout(db: Db, body: Option<CheckoutBody>, currentUser: Option<int>,
                  calculateShipping: int -> ShippingQuote, createSession: Option<Session>)
    returns (response: CheckoutResponse, lineItems: seq<LineItem>)
    modifies db
    ensures db.products == old(db.products) && db.variants == old(db.variants)
    ensures db.users == old(db.users) && db.settingsRows == old(db.settingsRows)
    ensures UniqueSessionIds(old(db.orders)) ==> UniqueSessionIds(db.orders)
    ensures body.None? ==> response == Refused(InternalError) && db.orders == old(db.orders)
    ensures body.Some? ==>
      var items, email := body.value.items, body.value.email;
      && (items.None? || items.value == [] ==> response == Refused(CartEmpty) && db.orders == old(db.orders))
      && (items.Some? && items.value != [] && email == "" ==>
            response == Refused(EmailRequired) && db.orders == old(db.orders))
      && (items.Some? && items.value != [] && email != "" && !AllValid(db.products, db.variants, items.value) ==>
            response == Refused(FirstError(db.products, db.variants, items.value).value) && db.orders == old(db.orders))
      && (items.Some? && items.value != [] && email != "" && AllValid(db.products, db.variants, items.value) ==>
            var cart := items.value;
            var subtotal := Subtotal(db.products, db.variants, cart);
            var quote := calculateShipping(subtotal);
            var placed := PendingOrder(currentUser, email, subtotal + quote.amountCents,
                                       OrderItems(db.products, db.variants, cart));
            && lineItems == SessionLineItems(db.products, db.variants, cart, quote)
            && (SessionIdTaken(old(db.orders), "") ==> response == Refused(InternalError) && db.orders == old(db.orders))
            && (!SessionIdTaken(old(db.orders), "") && createSession.None? ==>
                  response == Refused(InternalError) && db.orders == old(db.orders) + [placed])
            && (!SessionIdTaken(old(db.orders), "") && createSession.Some? && SessionIdTaken(old(db.orders), createSession.value.id) ==>
                  response == Refused(InternalError) && db.orders == old(db.orders) + [placed])
            && (!SessionIdTaken(old(db.orders), "") && createSession.Some? && !SessionIdTaken(old(db.orders), createSession.value.id) ==>
                  response == Started(createSession.value.id, createSession.value.url)
                  && db.orders == old(db.orders) + [placed.(stripeSessionId := createSession.value.id)]))
  {
    lineItems := [];
    if body.None? {
      return Refused(InternalError), lineItems;
    }
    var items, email := body.value.items, body.value.email;
    if items.None? || |items.value| == 0 {
      return Refused(CartEmpty), lineItems;
    }
    if email == "" {
      return Refused(EmailRequired), lineItems;
    }
    var cart := items.value;

    var error, subtotalCents;
    error, subtotalCents, lineItems := PriceCart(db.products, db.variants, cart);
    if error.Some? {
      return Refused(error.value), lineItems;
    }

    var shipping := calculateShipping(subtotalCents);
    var totalCents := subtotalCents + shipping.amountCents;
    if shipping.amountCents > 0 {
      lineItems := lineItems + [ShippingLine(shipping)];
    }

    var orderItemsData := CollectOrderItems(db.products, db.variants, cart);

    // The insert with the placeholder session id hits the unique index when an
    // earlier order still holds the placeholder.
    if SessionIdTaken(db.orders, "") {
      return Refused(InternalError), lineItems;
    }
    var order := PendingOrder(currentUser, email, totalCents, orderItemsData);
    var index := |db.orders|;
    db.orders := db.orders + [order];

    if createSession.None? {
      return Refused(InternalError), lineItems;
    }
    var session := createSession.value;
    if SessionIdTaken(db.orders[..index], session.id) {
      return Refused(InternalError), lineItems;
    }
    db.orders := db.orders[index := order.(stripeSessionId := session.id)];
    response := Started(session.id, session.url);
  }
}
