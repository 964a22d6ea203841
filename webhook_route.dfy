/** `POST /api/stripe/webhook`: reads the payment provider's event (verifying its
    signature when a secret is configured) and reconciles orders and stock.
    `checkout.session.completed` marks the order paid, copies the payment and
    shipping details and decrements the stock of every ordered variant;
    `checkout.session.async_payment_failed` marks every order of the session
    failed. The guards are the code's: only an order already `paid` is skipped,
    the failure overwrites any status, and stock has no floor. A payload that
    is `null`, or an event of either kind without `data`, throws before the
    handler's `try` blocks. A session object without an `id` leaves the
    store's filter without a value: the unique lookup of a completion is
    refused, and the failure's `updateMany` matches every order. */
module WebhookRoute {
  import opened Common
  import opened Store

  /** The fields of the provider's checkout-session object the handler reads.
      `shippingAddress` is the JSON text of the address, when there is one. */
  datatype SessionObject = SessionObject(
    id: string,
    paymentIntent: Option<string>,
    shippingName: Option<string>,
    shippingAddress: Option<string>)

  /** `event.data`: absent (reading `.object` throws), present without an
      `object` (reading `session.id` throws inside the `try`), holding an
      object without an `id` (the filter `{ stripeSessionId: undefined }` is
      an empty one), or holding the session. */
  datatype EventData = NoData | NoObject | NoSessionId | Data(session: SessionObject)

  /** What the body's JSON denotes: `null`, on which reading `type` throws,
      or an event of some type. Any other JSON value reads as an event whose
      type is none of the two handled here. */
  datatype Event = NullPayload | Event(kind: string, data: EventData)

  const SessionCompleted := "checkout.session.completed"
  const AsyncPaymentFailed := "checkout.session.async_payment_failed"

  /** `Uncaught` is an exception outside every `try`, which the framework
      answers with 500 and no JSON body. */
  datatype WebhookResponse = Received | SignatureInvalid | PayloadInvalid | ProcessingError | Uncaught

  function HttpStatus(r: WebhookResponse): (code: int)
    ensures code == 200 <==> r == Received
    ensures code == 400 <==> r == SignatureInvalid || r == PayloadInvalid
    ensures code == 500 <==> r == ProcessingError || r == Uncaught
  {
    match r
    case Received => 200
    case SignatureInvalid => 400
    case PayloadInvalid => 400
    case ProcessingError => 500
    case Uncaught => 500
  }

  datatype Reading = Accepted(event: Event) | Rejected(response: WebhookResponse)

  /** Step one. `constructEvent` is the outcome of the provider library's
      signature check (`None` when it throws) and `parsedBody` that of
      `JSON.parse` on the raw body (`None` when it throws). */
  function ReadEvent(webhookSecret: Option<string>, signature: Option<string>,
                     constructEvent: Option<Event>, parsedBody: Option<Event>): (r: Reading)
    ensures StrTruthy(webhookSecret) && StrTruthy(signature) ==>
      r == (if constructEvent.Some? then Accepted(constructEvent.value) else Rejected(SignatureInvalid))
    ensures !(StrTruthy(webhookSecret) && StrTruthy(signature)) ==>
      r == (if parsedBody.Some? then Accepted(parsedBody.value) else Rejected(PayloadInvalid))
  {
    if StrTruthy(webhookSecret) && StrTruthy(signature) then
      match constructEvent
      case Some(e) => Accepted(e)
      case None => Rejected(SignatureInvalid)
    else
      match parsedBody
      case Some(e) => Accepted(e)
      case None => Rejected(PayloadInvalid)
  }

  /** The order row after `prisma.order.update` at payment completion. */
  function PaidOrder(order: Order, session: SessionObject): (r: Order)
    ensures r.status == Paid && r.stripePaymentIntentId == session.paymentIntent
    ensures r.shippingName == (if StrTruthy(session.shippingName) then session.shippingName else None)
    ensures r.shippingAddress == session.shippingAddress
    ensures r.items == order.items && r.stripeSessionId == order.stripeSessionId
    ensures r.totalCents == order.totalCents && r.email == order.email && r.userId == order.userId
    ensures r.currency == order.currency
  {
    order.(status := Paid,
           stripePaymentIntentId := session.paymentIntent,
           shippingName := if StrTruthy(session.shippingName) then session.shippingName else None,
           shippingAddress := session.shippingAddress)
  }

  /** Position of the first item whose variant row does not exist: the update in
      the decrement loop throws there. `|items|` when there is none. */
  function FirstMissingVariant(variants: map<int, Variant>, items: seq<OrderItem>): (k: nat)
    ensures k <= |items|
    ensures forall j :: 0 <= j < k ==> !IntTruthy(items[j].variantId) || items[j].variantId.value in variants
    ensures k < |items| ==> IntTruthy(items[k].variantId) && items[k].variantId.value !in variants
  {
    if items == [] then 0
    else if IntTruthy(items[0].variantId) && items[0].variantId.value !in variants then 0
    else 1 + FirstMissingVariant(variants, items[1..])
  }

  /** One pass of the loop: `stock: { decrement: quantity }` on the item's variant. */
  function DecrementStep(variants: map<int, Variant>, item: OrderItem): map<int, Variant> {
    if IntTruthy(item.variantId) && item.variantId.value in variants then
      var id := item.variantId.value;
      variants[id := variants[id].(stock := variants[id].stock - item.quantity)]
    else variants
  }

  function ApplyDecrements(variants: map<int, Variant>, items: seq<OrderItem>): (r: map<int, Variant>)
    ensures r.Keys == variants.Keys
  {
    if items == [] then variants
    else DecrementStep(ApplyDecrements(variants, items[..|items| - 1]), items[|items| - 1])
  }

  /** Units of variant `id` among the items (items without a variant id count for none). */
  function UnitsOrdered(items: seq<OrderItem>, id: int): int {
    if items == [] then 0
    else
      var last := items[|items| - 1];
      UnitsOrdered(items[..|items| - 1], id) + if IntTruthy(last.variantId) && last.variantId.value == id then last.quantity else 0
  }

  /** The tables the handler touches. */
  datatype Tables = Tables(orders: seq<Order>, variants: map<int, Variant>)

  datatype Handled = Handled(tables: Tables, response: WebhookResponse)

  /** `checkout.session.completed`. */
  function OnCompleted(t: Tables, session: SessionObject): Handled {
    match FindBySession(t.orders, session.id)
    case None => Handled(t, Received)
    case Some(i) =>
      if t.orders[i].status == Paid then Handled(t, Received)
      else
        var items := t.orders[i].items;
        var m := FirstMissingVariant(t.variants, items);
        Handled(Tables(t.orders[i := PaidOrder(t.orders[i], session)], ApplyDecrements(t.variants, items[..m])),
                if m < |items| then ProcessingError else Received)
  }

  /** `updateMany({ where: { stripeSessionId }, data: { status: 'failed' } })`. */
  function MarkFailed(orders: seq<Order>, sid: string): (r: seq<Order>)
    ensures |r| == |orders|
    ensures forall i :: 0 <= i < |orders| && orders[i].stripeSessionId == sid ==> r[i] == orders[i].(status := Failed)
    ensures forall i :: 0 <= i < |orders| && orders[i].stripeSessionId != sid ==> r[i] == orders[i]
  {
    seq(|orders|, i requires 0 <= i < |orders| =>
      if orders[i].stripeSessionId == sid then orders[i].(status := Failed) else orders[i])
  }

  /** `updateMany` with an empty filter: every order becomes failed. */
  function MarkAllFailed(orders: seq<Order>): (r: seq<Order>)
    ensures |r| == |orders|
    ensures forall i :: 0 <= i < |orders| ==> r[i] == orders[i].(status := Failed)
  {
    if orders == [] then [] else MarkAllFailed(orders[..|orders| - 1]) + [orders[|orders| - 1].(status := Failed)]
  }

  /** The dispatch on `event.type`. Nothing is written before a throw. */
  function OnEvent(t: Tables, event: Event): (h: Handled)
    ensures event.NullPayload? ==> h == Handled(t, Uncaught)
    ensures event.Event? && event.kind != SessionCompleted && event.kind != AsyncPaymentFailed ==> h == Handled(t, Received)
    ensures event.Event? && (event.kind == SessionCompleted || event.kind == AsyncPaymentFailed) ==>
      && (event.data.NoData? ==> h == Handled(t, Uncaught))
      && (event.data.NoObject? ==> h == Handled(t, ProcessingError))
    ensures event.Event? && event.kind == SessionCompleted && event.data.NoSessionId? ==> h == Handled(t, ProcessingError)
    ensures event.Event? && event.kind == AsyncPaymentFailed && event.data.NoSessionId? ==>
      h == Handled(t.(orders := MarkAllFailed(t.orders)), Received)
    ensures event.Event? && event.kind == SessionCompleted && event.data.Data? ==> h == OnCompleted(t, event.data.session)
    ensures event.Event? && event.kind == AsyncPaymentFailed && event.data.Data? ==>
      h == Handled(t.(orders := MarkFailed(t.orders, event.data.session.id)), Received)
  {
    match event
    case NullPayload => Handled(t, Uncaught)
    case Event(kind, data) =>
      if kind != SessionCompleted && kind != AsyncPaymentFailed then Handled(t, Received)
      else
        match data
        case NoData => Handled(t, Uncaught)
        case NoObject => Handled(t, ProcessingError)
        case NoSessionId =>
          if kind == SessionCompleted then Handled(t, ProcessingError)
          else Handled(t.(orders := MarkAllFailed(t.orders)), Received)
        case Data(session) =>
          if kind == SessionCompleted then OnCompleted(t, session)
          else Handled(t.(orders := MarkFailed(t.orders, session.id)), Received)
  }

  /** One delivery of the webhook, from the raw request to the response. */
  function Deliver(t: Tables, webhookSecret: Option<string>, signature: Option<string>,
                   constructEvent: Option<Event>, parsedBody: Option<Event>): Handled {
    match ReadEvent(webhookSecret, signature, constructEvent, parsedBody)
    case Rejected(r) => Handled(t, r)
    case Accepted(e) => OnEvent(t, e)
  }

  /** A delivery answered with 400, or with a throw outside the `try` blocks,
      writes nothing; only a processing error can leave writes behind. */
  lemma RefusedDeliveryWritesNothing(t: Tables, webhookSecret: Option<string>, signature: Option<string>,
                                     constructEvent: Option<Event>, parsedBody: Option<Event>)
    ensures var h := Deliver(t, webhookSecret, signature, constructEvent, parsedBody);
            h.response != Received && h.response != ProcessingError ==> h.tables == t
  {
  }

  /** A failure event whose session object has no `id` is acknowledged after
      failing every order of the store, paid ones and those of other sessions
      included; the same object in a completion is answered with 500 and
      writes nothing. */
  lemma MissingSessionIdFailsEveryOrder(t: Tables, i: int)
    requires 0 <= i < |t.orders|
    ensures var h := OnEvent(t, Event(AsyncPaymentFailed, NoSessionId));
            h.response == Received && |h.tables.orders| == |t.orders| && h.tables.orders[i].status == Failed
            && h.tables.variants == t.variants
    ensures OnEvent(t, Event(SessionCompleted, NoSessionId)) == Handled(t, ProcessingError)
  {
  }

  /** Stock after the loop: every variant loses exactly the units ordered of it,
      with no floor; nothing else about any variant changes. */
  lemma {:induction false} StockAfterDecrements(variants: map<int, Variant>, items: seq<OrderItem>)
    ensures forall id :: id in variants ==>
      ApplyDecrements(variants, items)[id] == variants[id].(stock := variants[id].stock - UnitsOrdered(items, id))
  {
    if items != [] {
      var n := |items| - 1;
      StockAfterDecrements(variants, items[..n]);
    }
  }

  /** Changing an order's fields other than its session id does not move the
      lookup by session id. */
  lemma {:induction false} FindBySessionAfterUpdate(orders: seq<Order>, i: nat, o: Order, sid: string)
    requires i < |orders| && o.stripeSessionId == orders[i].stripeSessionId
    ensures FindBySession(orders[i := o], sid) == FindBySession(orders, sid)
  {
    if i > 0 {
      assert orders[i := o][1..] == orders[1..][i - 1 := o];
      FindBySessionAfterUpdate(orders[1..], i - 1, o, sid);
    }
  }

  lemma {:induction false} FindBySessionAfterMarkFailed(orders: seq<Order>, sid: string, sid': string)
    ensures FindBySession(MarkFailed(orders, sid), sid') == FindBySession(orders, sid')
  {
    if orders != [] {
      assert MarkFailed(orders, sid)[1..] == MarkFailed(orders[1..], sid);
      FindBySessionAfterMarkFailed(orders[1..], sid, sid');
    }
  }

  /** A redelivered completion changes nothing and is acknowledged. */
  lemma CompletionRedeliveryIsNoOp(t: Tables, session: SessionObject)
    ensures var once := OnCompleted(t, session).tables;
            OnCompleted(once, session) == Handled(once, Received)
  {
    match FindBySession(t.orders, session.id)
    case None =>
    case Some(i) =>
      if t.orders[i].status != Paid {
        FindBySessionAfterUpdate(t.orders, i, PaidOrder(t.orders[i], session), session.id);
      }
  }

  /** Every delivery is idempotent: delivering the same request twice leaves the
      tables as delivering it once, so stock is decremented at most once per
      redelivered completion. */
  lemma DeliveryIsIdempotent(t: Tables, webhookSecret: Option<string>, signature: Option<string>,
                             constructEvent: Option<Event>, parsedBody: Option<Event>)
    ensures var once := Deliver(t, webhookSecret, signature, constructEvent, parsedBody).tables;
            Deliver(once, webhookSecret, signature, constructEvent, parsedBody).tables == once
  {
    match ReadEvent(webhookSecret, signature, constructEvent, parsedBody)
    case Rejected(_) =>
    case Accepted(e) =>
      if e.Event? && e.kind == AsyncPaymentFailed && e.data.NoSessionId? {
        var once := MarkAllFailed(t.orders);
        assert MarkAllFailed(once) == once;
      }
      if e.Event? && e.data.Data? {
        if e.kind == SessionCompleted {
          CompletionRedeliveryIsNoOp(t, e.data.session);
        } else if e.kind == AsyncPaymentFailed {
          var once := MarkFailed(t.orders, e.data.session.id);
          assert MarkFailed(once, e.data.session.id) == once;
        }
      }
  }

  /** `paid` is not terminal in this handler: a failure event after the completion
      marks the order failed, and a later redelivery of the completion pays it
      again and decrements its stock a second time. */
  lemma {:induction false} CompletedFailedCompletedDecrementsTwice(t: Tables, session: SessionObject)
    requires FindBySession(t.orders, session.id).Some?
    requires t.orders[FindBySession(t.orders, session.id).value].status != Paid
    requires FirstMissingVariant(t.variants, t.orders[FindBySession(t.orders, session.id).value].items)
             == |t.orders[FindBySession(t.orders, session.id).value].items|
    ensures var i := FindBySession(t.orders, session.id).value;
            var items := t.orders[i].items;
            var paid := OnCompleted(t, session).tables;
            var failed := OnEvent(paid, Event(AsyncPaymentFailed, Data(session))).tables;
            var again := OnCompleted(failed, session);
            && failed.orders[i].status == Failed
            && again.response == Received
            && again.tables.orders[i].status == Paid
            && again.tables.variants == ApplyDecrements(ApplyDecrements(t.variants, items), items)
  {
    var i := FindBySession(t.orders, session.id).value;
    var items := t.orders[i].items;
    assert items[..|items|] == items;
    var paid := OnCompleted(t, session).tables;
    FindBySessionAfterUpdate(t.orders, i, PaidOrder(t.orders[i], session), session.id);
    var failed := MarkFailed(paid.orders, session.id);
    FindBySessionAfterMarkFailed(paid.orders, session.id, session.id);
    assert failed[i].items == items;
    MissingVariantsStayMissing(t.variants, items, items);
  }

  /** Decrements keep the set of variant rows, so the first missing variant of
      any list of items stays where it was. */
  lemma MissingVariantsStayMissing(variants: map<int, Variant>, done: seq<OrderItem>, items: seq<OrderItem>)
    ensures FirstMissingVariant(ApplyDecrements(variants, done), items) == FirstMissingVariant(variants, items)
  {
    SameKeysSameFirstMissing(variants, ApplyDecrements(variants, done), items);
  }

  lemma {:induction false} SameKeysSameFirstMissing(a: map<int, Variant>, b: map<int, Variant>, items: seq<OrderItem>)
    requires a.Keys == b.Keys
    ensures FirstMissingVariant(a, items) == FirstMissingVariant(b, items)
  {
    if items != [] {
      SameKeysSameFirstMissing(a, b, items[1..]);
    }
  }

  /** Stock has no floor: a completion for more units than are in stock drives
      the stock negative. */
  lemma StockCanGoNegative()
    ensures var variant := Variant(1, "Default", None, 1, true);
            var order := Order(None, "buyer@example.com", 3000, "usd", Pending, "cs_1", None, None, None,
                               [OrderItem(1, Some(7), 3, 1000)]);
            var t := Tables([order], map[7 := variant]);
            OnCompleted(t, SessionObject("cs_1", Some("pi_1"), None, None)).tables.variants[7].stock == -2
  {
    var variants := map[7 := Variant(1, "Default", None, 1, true)];
    var items := [OrderItem(1, Some(7), 3, 1000)];
    var order := Order(None, "buyer@example.com", 3000, "usd", Pending, "cs_1", None, None, None, items);
    assert FindBySession([order], "cs_1") == Some(0);
    assert FirstMissingVariant(variants, items[1..]) == 0;
    assert FirstMissingVariant(variants, items) == 1;
    assert items[..1] == items;
    assert items[..0] == [];
    assert ApplyDecrements(variants, items) == DecrementStep(variants, items[0]);
  }

  /** The decrement loop over an order's items. It stops, with the earlier
      decrements written, at the first item whose variant row is missing. */
  method DecrementStock(db: Db, items: seq<OrderItem>) returns (complete: bool)
    modifies db
    ensures db.products == old(db.products) && db.users == old(db.users)
    ensures db.settingsRows == old(db.settingsRows) && db.orders == old(db.orders)
    ensures var m := FirstMissingVariant(old(db.variants), items);
            db.variants == ApplyDecrements(old(db.variants), items[..m]) && (complete <==> m == |items|)
  {
    var k := 0;
    while k < |items|
      invariant 0 <= k <= |items|
      invariant k <= FirstMissingVariant(old(db.variants), items)
      invariant db.variants == ApplyDecrements(old(db.variants), items[..k])
      invariant db.products == old(db.products) && db.users == old(db.users)
      invariant db.settingsRows == old(db.settingsRows) && db.orders == old(db.orders)
    {
      var item := items[k];
      if IntTruthy(item.variantId) {
        var id := item.variantId.value;
        if id !in db.variants {
          return false;
        }
        db.variants := db.variants[id := db.variants[id].(stock := db.variants[id].stock - item.quantity)];
      }
      assert items[..k + 1][..k] == items[..k];
      k := k + 1;
    }
    assert items[..k] == items;
    return true;
  }

  /** The handler. It reads and writes the order and variant tables only. */
  method HandleWebhook(db: Db, webhookSecret: Option<string>, signature: Option<string>,
                       constructEvent: Option<Event>, parsedBody: Option<Event>)
    returns (response: WebhookResponse)
    modifies db
    ensures db.products == old(db.products) && db.users == old(db.users) && db.settingsRows == old(db.settingsRows)
    ensures Handled(Tables(db.orders, db.variants), response)
            == Deliver(Tables(old(db.orders), old(db.variants)), webhookSecret, signature, constructEvent, parsedBody)
  {
    var event: Event;
    if StrTruthy(webhookSecret) && StrTruthy(signature) {
      if constructEvent.None? {
        return SignatureInvalid;
      }
      event := constructEvent.value;
    } else {
      if parsedBody.None? {
        return PayloadInvalid;
      }
      event := parsedBody.value;
    }

    if event.NullPayload? {
      return Uncaught;
    }
    if event.kind != SessionCompleted && event.kind != AsyncPaymentFailed {
      return Received;
    }
    if event.data.NoData? {
      return Uncaught;
    }
    if event.data.NoObject? {
      return ProcessingError;
    }
    if event.data.NoSessionId? {
      if event.kind == SessionCompleted {
        return ProcessingError;
      }
      db.orders := MarkAllFailed(db.orders);
      return Received;
    }
    var session := event.data.session;
    if event.kind == SessionCompleted {
      var found := FindBySession(db.orders, session.id);
      if found.None? {
        return Received;
      }
      var i := found.value;
      var order := db.orders[i];
      if order.status == Paid {
        return Received;
      }
      db.orders := db.orders[i := PaidOrder(order, session)];
      var complete := DecrementStock(db, order.items);
      response := if complete then Received else ProcessingError;
      return;
    }

    db.orders := MarkFailed(db.orders, session.id);
    return Received;
  }
}
