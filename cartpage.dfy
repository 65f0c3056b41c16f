/** The cart page: a total that treats malformed numbers as 0, and the reload of the
    local cart from storage. */
module CartPage {
  import opened Js
  import opened Seqs
  import opened Domain
  import opened Storage
  import Checkout

  /** `(Number(price) || 0) * (Number(quantity) || 0)`. */
  function Contribution(item: CartLine): (r: real)
    ensures !WellFormed(item) ==> r == 0.0
    ensures WellFormed(item) ==> r == item.product.price.value * item.quantity.value
  {
    OrZero(item.product.price) * OrZero(item.quantity)
  }

  /** The page's `total`, a `reduce` from 0 over the contributions: a cart without a
      single line whose price and quantity are both numbers totals 0. */
  function Total(cart: seq<CartLine>): (r: real)
    ensures (forall i :: 0 <= i < |cart| ==> !WellFormed(cart[i])) ==> r == 0.0
  {
    if cart == [] then 0.0 else Total(cart[..|cart| - 1]) + Contribution(cart[|cart| - 1])
  }

  /** An empty cart totals 0. */
  lemma TotalEmpty()
    ensures Total([]) == 0.0
  {
  }

  /** Appending a line adds its contribution. */
  lemma TotalAppend(cart: seq<CartLine>, item: CartLine)
    ensures Total(cart + [item]) == Total(cart) + Contribution(item)
  {
    assert (cart + [item])[..|cart|] == cart;
  }

  /** The total of a concatenation is the sum of the totals. */
  lemma {:induction false} TotalConcat(a: seq<CartLine>, b: seq<CartLine>)
    ensures Total(a + b) == Total(a) + Total(b)
    decreases |b|
  {
    if b == [] {
      assert a + b == a;
    } else {
      assert (a + b)[..|a + b| - 1] == a + b[..|b| - 1];
      TotalConcat(a, b[..|b| - 1]);
    }
  }

  /** Malformed lines add nothing: the total is the total of the well-formed lines. */
  lemma {:induction false} MalformedLinesIgnored(cart: seq<CartLine>)
    ensures Total(cart) == Total(Filter(cart, WellFormed))
  {
    if cart != [] {
      var init, last := cart[..|cart| - 1], cart[|cart| - 1];
      assert cart == init + [last];
      MalformedLinesIgnored(init);
      FilterAppend(init, [last], WellFormed);
      var kept := Filter([last], WellFormed);
      assert kept == (if WellFormed(last) then [last] else []) + Filter([], WellFormed);
      TotalConcat(Filter(init, WellFormed), kept);
      assert [last][..0] == [];
      assert Total(kept) == Contribution(last);
    }
  }

  /** With non-negative prices and quantities the total is non-negative. */
  lemma {:induction false} TotalNonNegative(cart: seq<CartLine>)
    requires forall i :: 0 <= i < |cart| ==> OrZero(cart[i].product.price) >= 0.0 && OrZero(cart[i].quantity) >= 0.0
    ensures Total(cart) >= 0.0
  {
    if cart != [] {
      TotalNonNegative(cart[..|cart| - 1]);
    }
  }

  /** On a cart without NaN, and so on every cart read back from storage, this total
      and the checkout total agree (`null` counts as 0 in both). */
  lemma {:induction false} AgreesWithCheckout(cart: seq<CartLine>)
    requires forall i :: 0 <= i < |cart| ==> NoNaN(cart[i])
    ensures Checkout.Total(cart) == Num(Total(cart))
  {
    if cart != [] {
      AgreesWithCheckout(cart[..|cart| - 1]);
    }
  }

  /** The cart page's state. */
  class CartView {
    var localCart: seq<CartLine>
    const store: LocalStorage

    /** Mounting the page: start from the cart context's cart, then run `syncCart`. */
    constructor (store: LocalStorage, contextCart: seq<CartLine>)
      requires store.Valid()
      ensures this.store == store
      ensures localCart == store.Cart()
      ensures forall i :: 0 <= i < |localCart| ==> NoNaN(localCart[i])
    {
      this.store := store;
      localCart := contextCart;
      new;
      SyncCart();
    }

    /** `syncCart`: the local cart becomes the stored cart, or empty without the key.
        A stored cart holds no NaN, so `AgreesWithCheckout` applies to it. */
    method SyncCart()
      requires store.Valid()
      modifies this`localCart
      ensures localCart == store.Cart()
      ensures forall i :: 0 <= i < |localCart| ==> NoNaN(localCart[i])
    {
      localCart := store.Cart();
    }
  }
}
