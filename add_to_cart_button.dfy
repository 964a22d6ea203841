/** The add-to-cart button (`components/AddToCartButton.tsx`): reads the cart
    from local storage, merges the chosen quantity into the first line for the
    same product and variant or appends a new line, and writes the cart back. */
module AddToCartButton {
  import opened Common
  import opened CartPage

  /** `item.variantId === variantId || (!item.variantId && !variantId)`. */
  predicate SameVariant(stored: Option<int>, chosen: Option<int>) {
    (stored.Some? && chosen.Some? && stored.value == chosen.value) || (!IntTruthy(stored) && !IntTruthy(chosen))
  }

  predicate Matches(line: StoredLine, productId: int, variantId: Option<int>) {
    line.productId == productId && SameVariant(line.variantId, variantId)
  }

  /** `cart.findIndex(...)`: the first matching position, or -1. */
  function FindIndex(cart: seq<StoredLine>, productId: int, variantId: Option<int>): (k: int)
    ensures -1 <= k < |cart|
    ensures k >= 0 ==> Matches(cart[k], productId, variantId)
    ensures forall j :: 0 <= j < |cart| && (k < 0 || j < k) ==> !Matches(cart[j], productId, variantId)
  {
    if cart == [] then -1
    else if Matches(cart[0], productId, variantId) then 0
    else
      var k := FindIndex(cart[1..], productId, variantId);
      if k < 0 then -1 else k + 1
  }

  /** The cart after one add. */
  function AddOrMerge(cart: seq<StoredLine>, productId: int, variantId: Option<int>, quantity: int): seq<StoredLine> {
    var k := FindIndex(cart, productId, variantId);
    if k >= 0 then cart[k := cart[k].(quantity := cart[k].quantity + quantity)]
    else cart + [StoredLine(productId, IntOrNull(variantId), quantity)]
  }

  /** Units in the cart, summed over its lines. */
  function TotalUnits(cart: seq<StoredLine>): int {
    if cart == [] then 0 else TotalUnits(cart[..|cart| - 1]) + cart[|cart| - 1].quantity
  }

  /** On a match only the first matching line grows, by `quantity`; without one
      a new line for the product (a falsy variant id stored as null) is
      appended. */
  lemma AddOrMergeShape(cart: seq<StoredLine>, productId: int, variantId: Option<int>, quantity: int)
    ensures var r := AddOrMerge(cart, productId, variantId, quantity);
            var k := FindIndex(cart, productId, variantId);
            && (k >= 0 ==> |r| == |cart| && r[k].quantity == cart[k].quantity + quantity
                           && r[k].productId == cart[k].productId && r[k].variantId == cart[k].variantId
                           && forall j :: 0 <= j < |cart| && j != k ==> r[j] == cart[j])
            && (k < 0 ==> r[..|cart|] == cart && r[|cart|..] == [StoredLine(productId, IntOrNull(variantId), quantity)])
  {
  }

  lemma {:induction false} TotalUnitsConcat(a: seq<StoredLine>, b: seq<StoredLine>)
    ensures TotalUnits(a + b) == TotalUnits(a) + TotalUnits(b)
  {
    if b != [] {
      var n := |b| - 1;
      var ab := a + b;
      assert ab[..|ab| - 1] == a + b[..n];
      assert ab[|ab| - 1] == b[n];
      TotalUnitsConcat(a, b[..n]);
    } else {
      assert a + b == a;
    }
  }

  lemma TotalUnitsAt(cart: seq<StoredLine>, k: nat, line: StoredLine)
    requires k < |cart|
    ensures TotalUnits(cart[k := line]) == TotalUnits(cart) - cart[k].quantity + line.quantity
  {
    var updated := cart[k := line];
    assert cart == cart[..k] + [cart[k]] + cart[k + 1..];
    assert updated == cart[..k] + [line] + cart[k + 1..];
    TotalUnitsConcat(cart[..k] + [cart[k]], cart[k + 1..]);
    TotalUnitsConcat(cart[..k] + [line], cart[k + 1..]);
    TotalUnitsConcat(cart[..k], [cart[k]]);
    TotalUnitsConcat(cart[..k], [line]);
    assert [line][..0] == [] && [cart[k]][..0] == [];
  }

  /** Either way the cart holds exactly `quantity` more units. */
  lemma AddRaisesUnits(cart: seq<StoredLine>, productId: int, variantId: Option<int>, quantity: int)
    ensures TotalUnits(AddOrMerge(cart, productId, variantId, quantity)) == TotalUnits(cart) + quantity
  {
    var k := FindIndex(cart, productId, variantId);
    if k >= 0 {
      TotalUnitsAt(cart, k, cart[k].(quantity := cart[k].quantity + quantity));
    } else {
      TotalUnitsConcat(cart, [StoredLine(productId, IntOrNull(variantId), quantity)]);
      assert [StoredLine(productId, IntOrNull(variantId), quantity)][..0] == [];
    }
  }

  /** `Math.max(1, parseInt(value) || 1)`: the quantity field never drops below
      1, and text without a leading number reads as 1. */
  function ClampQuantity(input: string): (q: int)
    ensures q >= 1
    ensures ParseInt(input).None? ==> q == 1
    ensures ParseInt(input).Some? && ParseInt(input).value >= 1 ==> q == ParseInt(input).value
    ensures ParseInt(input).Some? && ParseInt(input).value < 1 ==> q == 1
  {
    var parsed := ParseInt(input);
    var n := if parsed.Some? && parsed.value != 0 then parsed.value else 1;
    if n > 1 then n else 1
  }

  /** One button, for one product (and variant). */
  class Button {
    const productId: int
    const variantId: Option<int>
    const disabled: bool
    var quantity: int
    var adding: bool

    constructor (productId: int, variantId: Option<int>, disabled: bool)
      ensures this.productId == productId && this.variantId == variantId && this.disabled == disabled
      ensures quantity == 1 && !adding
    {
      this.productId := productId;
      this.variantId := variantId;
      this.disabled := disabled;
      quantity := 1;
      adding := false;
    }

    /** The quantity input's `onChange`. */
    method OnQuantityInput(input: string)
      modifies this
      ensures quantity == ClampQuantity(input) && adding == old(adding)
    {
      quantity := ClampQuantity(input);
    }

    /** `addToCart`. `storageAvailable` is the `window.localStorage` test. */
    method AddToCart(storage: LocalStorage, storageAvailable: bool)
      modifies this, storage
      ensures disabled || old(adding) ==>
        storage.cart == old(storage.cart) && quantity == old(quantity) && adding == old(adding)
      ensures !disabled && !old(adding) && !storageAvailable ==>
        storage.cart == old(storage.cart) && quantity == old(quantity) && !adding
      ensures !disabled && !old(adding) && storageAvailable ==>
        storage.cart == AddOrMerge(old(storage.cart), productId, variantId, old(quantity))
        && quantity == 1 && !adding
    {
      if disabled || adding {
        return;
      }
      adding := true;
      if !storageAvailable {
        adding := false;
        return;
      }
      var cart := storage.cart;
      var existingIndex := FindIndex(cart, productId, variantId);
      if existingIndex >= 0 {
        cart := cart[existingIndex := cart[existingIndex].(quantity := cart[existingIndex].quantity + quantity)];
      } else {
        cart := cart + [StoredLine(productId, IntOrNull(variantId), quantity)];
      }
      storage.cart := cart;
      adding := false;
      quantity := 1;
    }
  }
}
