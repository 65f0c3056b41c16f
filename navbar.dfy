/** The navigation bar: the cart badge, the role-gated links and the menu toggle. */
module Navbar {
  import opened Js
  import opened Domain
  import opened Storage
  import AuthContext

  /** The badge's `reduce`: the quantities added up from 0, without coercion. A
      `null` quantity counts as 0; a NaN one makes the count NaN. */
  function ItemCount(cart: seq<CartLine>): (r: JsNum)
    ensures r.Num? <==> forall i :: 0 <= i < |cart| ==> !cart[i].quantity.NaN?
    ensures !r.Null?
  {
    if cart == [] then Num(0.0) else Add(ItemCount(cart[..|cart| - 1]), cart[|cart| - 1].quantity)
  }

  /** `cartItemCount > 0`. */
  predicate ShowBadge(count: JsNum) {
    IsPositive(count)
  }

  /** The count is the sum of the quantities: it adds up over any split of the cart. */
  lemma {:induction false} ItemCountConcat(a: seq<CartLine>, b: seq<CartLine>)
    ensures ItemCount(a + b) == Add(ItemCount(a), ItemCount(b))
    decreases |b|
  {
    if b == [] {
      assert a + b == a;
      AddZero(ItemCount(a));
    } else {
      var b' := b[..|b| - 1];
      assert (a + b)[..|a + b| - 1] == a + b';
      ItemCountConcat(a, b');
      AddAssoc(ItemCount(a), ItemCount(b'), b[|b| - 1].quantity);
    }
  }

  /** A one-line cart counts its quantity, with `null` as 0. */
  lemma SingleLineCount(line: CartLine)
    ensures !line.quantity.NaN? ==> ItemCount([line]) == Num(OrZero(line.quantity))
    ensures line.quantity.NaN? ==> ItemCount([line]) == NaN
  {
    assert [line][..0] == [];
  }

  /** An empty or missing cart shows no badge. */
  lemma EmptyCartNoBadge()
    ensures ItemCount([]) == Num(0.0)
    ensures !ShowBadge(ItemCount([]))
  {
  }

  /** With every quantity at least 1, the count is at least the number of lines, so a
      non-empty cart shows the badge. */
  lemma {:induction false} CountAtLeastLines(cart: seq<CartLine>)
    requires forall i :: 0 <= i < |cart| ==> cart[i].quantity.Num? && cart[i].quantity.value >= 1.0
    ensures ItemCount(cart).Num? && ItemCount(cart).value >= |cart| as real
    ensures cart != [] ==> ShowBadge(ItemCount(cart))
  {
    if cart != [] {
      CountAtLeastLines(cart[..|cart| - 1]);
    }
  }

  /** A cart read back from storage always counts to a number. */
  lemma StoredCartCounts(cart: seq<CartLine>)
    ensures ItemCount(StoredCart(cart)).Num?
  {
  }

  /** A line added with an empty quantity box (NaN, stored as `null`) adds 0 to the
      count read back from storage: the badge shows the other lines' total. */
  lemma EmptyBoxAddsNothing(cart: seq<CartLine>, line: CartLine)
    requires line.quantity.NaN?
    ensures ItemCount(StoredCart(cart + [line])) == ItemCount(StoredCart(cart))
  {
    StoredCartAppend(cart, line);
    var stored := StoredCart(cart);
    assert (stored + [StoredLine(line)])[..|stored|] == stored;
  }

  /** Adding a product once with an empty quantity box and once with quantity 2 shows
      a badge of 2. */
  lemma EmptyBoxThenTwo(p: Product)
    ensures ItemCount(StoredCart([CartLine(p, NaN), CartLine(p, Num(2.0))])) == Num(2.0)
    ensures ShowBadge(ItemCount(StoredCart([CartLine(p, NaN), CartLine(p, Num(2.0))])))
  {
    var cart := StoredCart([CartLine(p, NaN), CartLine(p, Num(2.0))]);
    assert cart[..1] == StoredCart([CartLine(p, NaN)]);
    SingleLineCount(cart[0]);
  }

  /** "Mis Órdenes", the profile link and the logout button: any logged-in user. */
  predicate ShowUserLinks(user: Option<User>) {
    user.Some?
  }

  /** "Agregar Productos": only a logged-in seller. */
  predicate ShowAddProducts(user: Option<User>) {
    user.Some? && user.value.role == Vendedor
  }

  /** The seller link is shown only inside the logged-in part of the bar. */
  lemma AddProductsNeedsLogin(user: Option<User>)
    ensures ShowAddProducts(user) ==> ShowUserLinks(user)
    ensures ShowAddProducts(user) <==> user.Some? && user.value.role == Vendedor
  {
  }

  /** The navigation bar's state. */
  class NavbarView {
    var cartItemCount: JsNum
    var menuOpen: bool
    const store: LocalStorage
    const auth: AuthContext.AuthProvider

    /** Mounting: the count is read from the stored cart once; the menu is closed.
        Since the stored cart holds no NaN, the count is a number. */
    constructor (store: LocalStorage, auth: AuthContext.AuthProvider)
      requires store.Valid()
      ensures this.store == store && this.auth == auth
      ensures cartItemCount == ItemCount(store.Cart()) && !menuOpen
      ensures cartItemCount.Num?
    {
      StoredCartCounts(store.Cart());
      this.store, this.auth := store, auth;
      cartItemCount := ItemCount(store.Cart());
      menuOpen := false;
    }

    /** `toggleMenu`: twice in a row restores the menu. */
    method ToggleMenu()
      modifies this`menuOpen
      ensures menuOpen == !old(menuOpen)
    {
      menuOpen := !menuOpen;
    }

    /** A link's `onClick`: close the menu. */
    method CloseMenu()
      modifies this`menuOpen
      ensures !menuOpen
    {
      menuOpen := false;
    }

    /** The logout button: log out and close the menu. */
    method HandleLogout()
      requires auth.Valid()
      modifies this`menuOpen, auth`user, auth.storage`user
      ensures auth.user == None && auth.Valid() && !menuOpen
    {
      auth.Logout();
      menuOpen := false;
    }
  }
}
