/** The records the storefront keeps in component state and in browser storage. */
module Domain {
  import opened Js

  /** The two roles an identity can have. */
  datatype Role = Comprador | Vendedor

  /** A user id is untyped in the source: the hard-coded accounts use the strings
      '1' and '2', sign-up uses the numeric timestamp. Strict equality (`===`)
      tells the two kinds apart, as datatype equality does. */
  datatype UserId = StrId(text: string) | NumId(stamp: int)

  datatype User = User(
    id: UserId,
    name: string,
    email: string,
    phone: string,
    dui: string,
    address: string,
    role: Role)

  /** A comment's rating: a star count when the buyer picked one, otherwise
      the field is `undefined`, which is not of type number. */
  datatype Rating = Stars(stars: int) | NoRating

  /** A catalog entry. `id` is the creation timestamp; `price` is whatever the
      last edit set, NaN included (`null` once stored); `owner` is the creator's
      display name; `rating` is the star the buyer picked in the product modal,
      absent on records created by the add-product form. */
  datatype Product = Product(
    id: int,
    name: string,
    description: string,
    price: JsNum,
    unit: string,
    imageUrl: string,
    owner: string,
    rating: Rating)

  datatype Comment = Comment(
    productId: int,
    user: string,
    comment: string,
    rating: Rating,
    date: string)

  /** A cart line: a copy of the product record plus the requested quantity
      (NaN when the quantity box held no number, `null` once stored). */
  datatype CartLine = CartLine(product: Product, quantity: JsNum)

  /** A cart line whose price and quantity are both numbers (neither NaN nor `null`). */
  predicate WellFormed(line: CartLine) {
    line.product.price.Num? && line.quantity.Num?
  }

  /** A cart line whose price and quantity are not NaN; `null` is allowed. */
  predicate NoNaN(line: CartLine) {
    !line.product.price.NaN? && !line.quantity.NaN?
  }

  /** One line of a recorded order. */
  datatype OrderLine = OrderLine(name: string, quantity: JsNum, price: JsNum, totalPrice: JsNum)

  /** A recorded order. */
  datatype Order = Order(
    userId: UserId,
    userName: string,
    address: string,
    phone: string,
    totalPrice: JsNum,
    cartItems: seq<OrderLine>,
    orderDate: string)

  /** A product as `JSON.parse(JSON.stringify(p))` gives it back. */
  function StoredProduct(p: Product): (r: Product)
    ensures r.(price := p.price) == p && r.price == Stored(p.price)
  {
    p.(price := Stored(p.price))
  }

  /** A cart line as it is read back from storage. */
  function StoredLine(l: CartLine): (r: CartLine)
    ensures r.product == StoredProduct(l.product) && r.quantity == Stored(l.quantity)
    ensures NoNaN(r)
  {
    CartLine(StoredProduct(l.product), Stored(l.quantity))
  }

  /** An order line as it is read back from storage. */
  function StoredOrderLine(l: OrderLine): (r: OrderLine)
    ensures r.name == l.name && r.quantity == Stored(l.quantity)
    ensures r.price == Stored(l.price) && r.totalPrice == Stored(l.totalPrice)
  {
    OrderLine(l.name, Stored(l.quantity), Stored(l.price), Stored(l.totalPrice))
  }

  /** An order as it is read back from storage. */
  function StoredOrder(o: Order): (r: Order)
    ensures r.(totalPrice := o.totalPrice, cartItems := o.cartItems) == o
    ensures r.totalPrice == Stored(o.totalPrice)
    ensures |r.cartItems| == |o.cartItems|
    ensures forall i :: 0 <= i < |o.cartItems| ==> r.cartItems[i] == StoredOrderLine(o.cartItems[i])
  {
    o.(totalPrice := Stored(o.totalPrice),
       cartItems := seq(|o.cartItems|, i requires 0 <= i < |o.cartItems| => StoredOrderLine(o.cartItems[i])))
  }

  /** The catalog as `localStorage.setItem('products', JSON.stringify(ps))` keeps it. */
  function StoredCatalog(ps: seq<Product>): (r: seq<Product>)
    ensures |r| == |ps|
    ensures forall i :: 0 <= i < |ps| ==> r[i] == StoredProduct(ps[i])
  {
    seq(|ps|, i requires 0 <= i < |ps| => StoredProduct(ps[i]))
  }

  /** The cart as `localStorage.setItem('cart', JSON.stringify(c))` keeps it. */
  function StoredCart(c: seq<CartLine>): (r: seq<CartLine>)
    ensures |r| == |c|
    ensures forall i :: 0 <= i < |c| ==> r[i] == StoredLine(c[i])
  {
    seq(|c|, i requires 0 <= i < |c| => StoredLine(c[i]))
  }

  /** The order history as `localStorage.setItem('orders', JSON.stringify(os))` keeps it. */
  function StoredOrders(os: seq<Order>): (r: seq<Order>)
    ensures |r| == |os|
    ensures forall i :: 0 <= i < |os| ==> r[i] == StoredOrder(os[i])
  {
    seq(|os|, i requires 0 <= i < |os| => StoredOrder(os[i]))
  }

  /** Writing back what was read from storage changes nothing: the round trip is
      idempotent on every stored collection. */
  lemma StoredRoundTrips(ps: seq<Product>, c: seq<CartLine>, os: seq<Order>)
    ensures StoredCatalog(StoredCatalog(ps)) == StoredCatalog(ps)
    ensures StoredCart(StoredCart(c)) == StoredCart(c)
    ensures StoredOrders(StoredOrders(os)) == StoredOrders(os)
  {
    forall i | 0 <= i < |os|
      ensures StoredOrder(StoredOrder(os[i])) == StoredOrder(os[i])
    {
      var o := os[i];
      assert StoredOrder(StoredOrder(o)).cartItems == StoredOrder(o).cartItems;
    }
  }

  /** Storing a catalog with one more product at its end stores it last and the
      earlier ones as before. */
  lemma StoredCatalogAppend(ps: seq<Product>, p: Product)
    ensures StoredCatalog(ps + [p]) == StoredCatalog(ps) + [StoredProduct(p)]
  {
  }

  /** Storing a cart with one more line at its end stores it last and the earlier
      ones as before. */
  lemma StoredCartAppend(c: seq<CartLine>, l: CartLine)
    ensures StoredCart(c + [l]) == StoredCart(c) + [StoredLine(l)]
  {
  }

  /** Storing an order history with one more order at its end stores it last and the
      earlier ones as before. */
  lemma StoredOrdersAppend(os: seq<Order>, o: Order)
    ensures StoredOrders(os + [o]) == StoredOrders(os) + [StoredOrder(o)]
  {
  }

  /** The placeholder name used when nobody is logged in. */
  const Anonymous: string := "Anónimo"
}
