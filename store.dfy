/** The relational store behind the shop (Prisma over PostgreSQL), modelled as
    in-memory tables held by one object. Only the tables and columns that the
    checkout, webhook, password and settings code reads or writes are kept.
    An order's id is its position in `orders` plus one (the autoincrement). */
module Store {
  import opened Common

  datatype Product = Product(
    name: string,
    slug: string,
    description: Option<string>,
    basePrice: int,
    isActive: bool,
    categoryId: Option<int>)

  /** A variant row; `price` is nullable, `stock` is a plain integer column. */
  datatype Variant = Variant(
    productId: int,
    name: string,
    price: Option<int>,
    stock: int,
    isActive: bool)

  datatype OrderStatus = Pending | Paid | Failed | Cancelled

  /** A snapshot line of an order; `variantId` is null for a product without variant. */
  datatype OrderItem = OrderItem(
    productId: int,
    variantId: Option<int>,
    quantity: int,
    unitPriceCents: int)

  /** An order row with its items. The shipping address is the JSON text the
      webhook stores, kept opaque. */
  datatype Order = Order(
    userId: Option<int>,
    email: string,
    totalCents: int,
    currency: string,
    status: OrderStatus,
    stripeSessionId: string,
    stripePaymentIntentId: Option<string>,
    shippingName: Option<string>,
    shippingAddress: Option<string>,
    items: seq<OrderItem>)

  datatype User = User(email: string, passwordHash: string)

  /** The storefront switches of a settings row. */
  datatype Visibility = Visibility(
    showHomepage: bool,
    showProductList: bool,
    showSearch: bool,
    showAccountArea: bool,
    showContactPage: bool,
    showLocationPage: bool,
    showBlog: bool,
    showFAQ: bool)

  /** A store-settings row. `profile` holds the optional text columns (business
      name, contact data, hero texts, social links, Stripe keys) that are set;
      a column that is null is absent from it. */
  datatype StoreSettings = StoreSettings(
    id: int,
    primaryColor: Option<string>,
    secondaryColor: Option<string>,
    profile: map<string, string>,
    visibility: Visibility,
    shippingMode: string,
    flatShippingRateCents: int,
    flatShippingLabel: string)

  /** The unique index on `stripeSessionId`: no two orders share a session id. */
  ghost predicate UniqueSessionIds(orders: seq<Order>) {
    forall i, j :: 0 <= i < j < |orders| ==> orders[i].stripeSessionId != orders[j].stripeSessionId
  }

  predicate SessionIdTaken(orders: seq<Order>, sid: string) {
    exists i :: 0 <= i < |orders| && orders[i].stripeSessionId == sid
  }

  /** `findUnique({ where: { stripeSessionId } })`: the position of the order
      with that session id, if there is one (the first, should there be more). */
  function FindBySession(orders: seq<Order>, sid: string): (r: Option<nat>)
    ensures r.None? <==> !SessionIdTaken(orders, sid)
    ensures r.Some? ==> r.value < |orders| && orders[r.value].stripeSessionId == sid
    ensures r.Some? ==> forall j :: 0 <= j < r.value ==> orders[j].stripeSessionId != sid
  {
    if orders == [] then None
    else if orders[0].stripeSessionId == sid then Some(0)
    else
      match FindBySession(orders[1..], sid)
      case None => None
      case Some(k) => Some(k + 1)
  }

  /** The database: one field per table. */
  class Db {
    var products: map<int, Product>
    var variants: map<int, Variant>
    var orders: seq<Order>
    var users: map<int, User>
    var settingsRows: seq<StoreSettings>

    constructor (products: map<int, Product>, variants: map<int, Variant>, orders: seq<Order>,
                 users: map<int, User>, settingsRows: seq<StoreSettings>)
      ensures this.products == products && this.variants == variants && this.orders == orders
      ensures this.users == users && this.settingsRows == settingsRows
    {
      this.products := products;
      this.variants := variants;
      this.orders := orders;
      this.users := users;
      this.settingsRows := settingsRows;
    }
  }
}
