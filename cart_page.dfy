/** The cart page (`app/cart/page.tsx`): the cart kept in the browser's local
    storage, shown with product details and edited by changing a line's
    quantity or removing a line. What is written back to storage is the cart
    with the fetched details stripped. The subtotal multiplies each line's
    displayed price by its quantity. */
module CartPage {
  import opened Common

  /** A cart line as stored under the `cart` key. */
  datatype StoredLine = StoredLine(productId: int, variantId: Option<int>, quantity: int)

  /** Product and variant details fetched for display. */
  datatype ProductInfo = ProductInfo(name: string, basePrice: int, images: string)
  datatype VariantInfo = VariantInfo(name: string, price: Option<int>)

  datatype CartEntry = CartEntry(line: StoredLine, product: Option<ProductInfo>, variant: Option<VariantInfo>)

  /** The browser's local storage, holding the cart. */
  class LocalStorage {
    var cart: seq<StoredLine>

    constructor (cart: seq<StoredLine>)
      ensures this.cart == cart
    {
      this.cart := cart;
    }
  }

  /** `item.variant?.price || item.product?.basePrice || 0`: a zero or missing
      variant price falls back to the base price, a zero or missing base price
      to 0. */
  function DisplayPrice(e: CartEntry): (p: int)
    ensures e.variant.Some? && IntTruthy(e.variant.value.price) ==> p == e.variant.value.price.value
    ensures !(e.variant.Some? && IntTruthy(e.variant.value.price)) && e.product.Some? ==> p == e.product.value.basePrice
    ensures !(e.variant.Some? && IntTruthy(e.variant.value.price)) && e.product.None? ==> p == 0
  {
    if e.variant.Some? && IntTruthy(e.variant.value.price) then e.variant.value.price.value
    else if e.product.Some? && e.product.value.basePrice != 0 then e.product.value.basePrice
    else 0
  }

  function LineTotal(e: CartEntry): int {
    DisplayPrice(e) * e.line.quantity
  }

  /** The `reduce` computing the subtotal. */
  function Subtotal(cart: seq<CartEntry>): int {
    if cart == [] then 0 else Subtotal(cart[..|cart| - 1]) + LineTotal(cart[|cart| - 1])
  }

  /** What the page persists: `newCart.map(({ product, variant, ...item }) => item)`. */
  function Strip(cart: seq<CartEntry>): (r: seq<StoredLine>)
    ensures |r| == |cart|
    ensures forall i :: 0 <= i < |cart| ==> r[i] == cart[i].line
  {
    seq(|cart|, i requires 0 <= i < |cart| => cart[i].line)
  }

  /** `cart.filter((_, i) => i !== index)`: every entry whose position is not `index`. */
  function RemoveItem(cart: seq<CartEntry>, index: int): seq<CartEntry> {
    if cart == [] then []
    else RemoveItem(cart[..|cart| - 1], index) + if |cart| - 1 == index then [] else [cart[|cart| - 1]]
  }

  /** The summary box: the total shown is the subtotal; shipping is not added on this page. */
  datatype Summary = Summary(subtotal: int, total: int)

  function OrderSummary(cart: seq<CartEntry>): (s: Summary)
    ensures s.total == s.subtotal == Subtotal(cart)
  {
    var subtotal := Subtotal(cart);
    Summary(subtotal, subtotal)
  }

  lemma {:induction false} RemoveItemSlices(cart: seq<CartEntry>, index: int)
    ensures 0 <= index < |cart| ==> RemoveItem(cart, index) == cart[..index] + cart[index + 1..]
    ensures !(0 <= index < |cart|) ==> RemoveItem(cart, index) == cart
  {
    if cart != [] {
      var n := |cart| - 1;
      var prefix := cart[..n];
      RemoveItemSlices(prefix, index);
      if index == n {
        assert cart[index + 1..] == [];
      } else if 0 <= index < n {
        assert prefix[..index] == cart[..index];
        assert prefix[index + 1..] + [cart[n]] == cart[index + 1..];
      } else {
        assert prefix + [cart[n]] == cart;
      }
    }
  }

  /** Removing position `index` deletes exactly that entry and keeps the others
      in order; an index outside the cart removes nothing. */
  lemma RemoveItemShape(cart: seq<CartEntry>, index: int)
    ensures 0 <= index < |cart| ==> |RemoveItem(cart, index)| == |cart| - 1
    ensures 0 <= index < |cart| ==> forall j :: 0 <= j < |cart| - 1 ==>
              RemoveItem(cart, index)[j] == (if j < index then cart[j] else cart[j + 1])
    ensures !(0 <= index < |cart|) ==> RemoveItem(cart, index) == cart
  {
    RemoveItemSlices(cart, index);
  }

  lemma {:induction false} SubtotalConcat(a: seq<CartEntry>, b: seq<CartEntry>)
    ensures Subtotal(a + b) == Subtotal(a) + Subtotal(b)
  {
    if b != [] {
      var n := |b| - 1;
      var ab := a + b;
      assert ab[..|ab| - 1] == a + b[..n];
      assert ab[|ab| - 1] == b[n];
      assert Subtotal(ab) == Subtotal(a + b[..n]) + LineTotal(b[n]);
      SubtotalConcat(a, b[..n]);
    } else {
      assert a + b == a;
    }
  }

  lemma SubtotalSplit(cart: seq<CartEntry>, i: nat)
    requires i < |cart|
    ensures Subtotal(cart) == Subtotal(cart[..i]) + LineTotal(cart[i]) + Subtotal(cart[i + 1..])
  {
    assert cart == cart[..i] + [cart[i]] + cart[i + 1..];
    SubtotalConcat(cart[..i] + [cart[i]], cart[i + 1..]);
    SubtotalConcat(cart[..i], [cart[i]]);
    assert [cart[i]][..0] == [];
  }

  /** Removing a line lowers the subtotal by exactly that line's total. */
  lemma RemoveItemSubtotal(cart: seq<CartEntry>, index: nat)
    requires index < |cart|
    ensures Subtotal(RemoveItem(cart, index)) == Subtotal(cart) - LineTotal(cart[index])
  {
    RemoveItemSlices(cart, index);
    SubtotalSplit(cart, index);
    SubtotalConcat(cart[..index], cart[index + 1..]);
  }

  /** Setting a line's quantity changes the subtotal by its price times the change. */
  lemma SetQuantitySubtotal(cart: seq<CartEntry>, index: nat, quantity: int)
    requires index < |cart|
    ensures var e := cart[index];
            Subtotal(cart[index := e.(line := e.line.(quantity := quantity))])
            == Subtotal(cart) + DisplayPrice(e) * (quantity - e.line.quantity)
  {
    var e := cart[index];
    var e' := e.(line := e.line.(quantity := quantity));
    var updated := cart[index := e'];
    SubtotalSplit(cart, index);
    SubtotalSplit(updated, index);
    assert updated[..index] == cart[..index];
    assert updated[index + 1..] == cart[index + 1..];
    assert DisplayPrice(e') == DisplayPrice(e);
    assert LineTotal(e') - LineTotal(e) == DisplayPrice(e) * (quantity - e.line.quantity);
  }

  /** The page's state: the loaded cart, and the storage it writes back to. */
  class CartView {
    var cart: seq<CartEntry>
    const storage: LocalStorage

    constructor (cart: seq<CartEntry>, storage: LocalStorage)
      ensures this.cart == cart && this.storage == storage
    {
      this.cart := cart;
      this.storage := storage;
    }

    /** `updateQuantity`: a quantity below 1 is ignored; otherwise only the line
        at `index` takes the new quantity, and the stripped cart is persisted. */
    method UpdateQuantity(index: int, quantity: int)
      requires quantity >= 1 ==> 0 <= index < |cart|
      modifies this, storage
      ensures quantity < 1 ==> cart == old(cart) && storage.cart == old(storage.cart)
      ensures quantity >= 1 ==>
        && |cart| == |old(cart)|
        && cart[index] == old(cart[index]).(line := old(cart[index]).line.(quantity := quantity))
        && (forall j :: 0 <= j < |cart| && j != index ==> cart[j] == old(cart[j]))
        && storage.cart == Strip(cart)
    {
      if quantity < 1 {
        return;
      }
      var newCart := cart;
      newCart := newCart[index := newCart[index].(line := newCart[index].line.(quantity := quantity))];
      cart := newCart;
      storage.cart := Strip(newCart);
    }

    /** `removeItem`: the cart without position `index`, persisted stripped. */
    method RemoveLine(index: int)
      modifies this, storage
      ensures cart == RemoveItem(old(cart), index)
      ensures storage.cart == Strip(cart)
    {
      var newCart := RemoveItem(cart, index);
      cart := newCart;
      storage.cart := Strip(newCart);
    }
  }
}
