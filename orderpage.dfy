/** The order history page: the logged-in user's orders, in the order they were placed. */
module OrderPage {
  import opened Js
  import opened Seqs
  import opened Domain
  import opened Storage
  import Checkout

  /** Orders placed by the user with this id. */
  function PlacedBy(id: UserId): Order -> bool {
    (o: Order) => o.userId == id
  }

  /** The effect's `filter`: exactly the stored orders with this `user_id`, unsorted. */
  function UserOrders(stored: seq<Order>, id: UserId): (r: seq<Order>)
    ensures forall i :: 0 <= i < |r| ==> r[i] in stored && r[i].userId == id
    ensures forall i :: 0 <= i < |stored| && stored[i].userId == id ==> stored[i] in r
  {
    Filter(stored, PlacedBy(id))
  }

  /** The listing keeps the order in which the orders were stored. */
  lemma UserOrdersKeepOrder(stored: seq<Order>, id: UserId)
    ensures IsSubseq(UserOrders(stored, id), stored)
  {
    FilterIsSubseq(stored, PlacedBy(id));
  }

  /** An order just recorded for a user is that user's last listed order, and no other
      user's listing changes. */
  lemma NewOrderListedLast(stored: seq<Order>, o: Order, id: UserId)
    ensures UserOrders(stored + [o], id)
            == UserOrders(stored, id) + (if o.userId == id then [o] else [])
  {
    FilterAppend(stored, [o], PlacedBy(id));
    assert Filter([o], PlacedBy(id)) == (if o.userId == id then [o] else []) + Filter([], PlacedBy(id));
  }

  /** The amount shown beside an order line: `price * quantity`. On a line read back
      from storage it is always a number: a `null` field counts as 0. */
  function LineAmount(line: OrderLine): (r: JsNum)
    ensures r.NaN? <==> line.price.NaN? || line.quantity.NaN?
    ensures !r.NaN? ==> r == Num(OrZero(line.price) * OrZero(line.quantity))
    ensures !line.price.NaN? && !line.quantity.NaN? ==> r.Num?
  {
    Mul(line.price, line.quantity)
  }

  /** For an order built at checkout and read back from storage, each shown amount is
      a number and equals the recorded line total, with a total stored as `null` (it
      was NaN) shown as 0. */
  lemma ShownAmountIsRecordedTotal(cart: seq<CartLine>, i: int)
    requires 0 <= i < |cart|
    ensures var line := StoredOrderLine(Checkout.OrderLines(cart)[i]);
            LineAmount(line).Num? && LineAmount(line).value == OrZero(line.totalPrice)
    ensures var line := StoredOrderLine(Checkout.OrderLines(cart)[i]);
            line.totalPrice.Num? ==> LineAmount(line) == line.totalPrice
  {
  }

  /** Every amount shown for an order read back from storage is a number. */
  lemma StoredAmountsAreNumbers(o: Order, i: int)
    requires 0 <= i < |o.cartItems|
    ensures LineAmount(StoredOrder(o).cartItems[i]).Num?
  {
  }

  /** The order page's state. */
  class OrdersView {
    var orders: seq<Order>
    const store: LocalStorage

    constructor (store: LocalStorage)
      ensures this.store == store && orders == []
    {
      this.store := store;
      orders := [];
    }

    /** The effect on `user`: with a user, show that user's stored orders; without one,
        leave the list as it is (empty after mounting). */
    method LoadOrders(user: Option<User>)
      modifies this`orders
      ensures user.Some? ==> orders == UserOrders(store.Orders(), user.value.id)
      ensures user.None? ==> orders == old(orders)
    {
      if user.Some? {
        orders := UserOrders(store.Orders(), user.value.id);
      }
    }
  }

  /** Without an orders key, a user has no orders to show. */
  lemma MissingKeyShowsNothing(store: LocalStorage, id: UserId)
    requires store.orders.None?
    ensures UserOrders(store.Orders(), id) == []
  {
  }
}
