/** Browser local storage, one field per key the storefront uses. `None` is a
    missing key; each collection is read as `JSON.parse(getItem(key) || '[]')`,
    so a missing collection reads as empty. Every writer stores the JSON round trip
    of what it writes (`StoredCatalog`, `StoredCart`, `StoredOrders`), so a NaN
    number field reads back as `null`. */
module Storage {
  import opened Js
  import opened Domain

  class LocalStorage {
    var products: Option<seq<Product>>
    var comments: Option<seq<Comment>>
    var cart: Option<seq<CartLine>>
    var orders: Option<seq<Order>>
    var user: Option<User>

    /** Local storage holds only strings, so a collection read back is already its
        own JSON round trip: reading it and writing it back changes nothing. */
    ghost predicate Valid()
      reads this`products, this`cart, this`orders
    {
      && StoredCatalog(products.GetOr([])) == products.GetOr([])
      && StoredCart(cart.GetOr([])) == cart.GetOr([])
      && StoredOrders(orders.GetOr([])) == orders.GetOr([])
    }

    /** A browser profile with nothing stored yet. */
    constructor ()
      ensures products == None && comments == None && cart == None
      ensures orders == None && user == None
      ensures Valid()
    {
      products, comments, cart, orders, user := None, None, None, None, None;
    }

    /** The catalog under key 'products'. */
    function Products(): seq<Product>
      reads this
    {
      products.GetOr([])
    }

    /** The comments under key 'comments'. */
    function Comments(): seq<Comment>
      reads this
    {
      comments.GetOr([])
    }

    /** The cart under key 'cart'. */
    function Cart(): seq<CartLine>
      reads this
    {
      cart.GetOr([])
    }

    /** The order history under key 'orders'. */
    function Orders(): seq<Order>
      reads this
    {
      orders.GetOr([])
    }
  }
}
