/** The checkout page: the order total, the digit-gated form, the e-mail payload and
    the recording of the order. */
module Checkout {
  import opened Js
  import opened Text
  import opened Domain
  import opened Storage

  /** `item.price * item.quantity` (`null` counts as 0, NaN is absorbing). */
  function LineTotal(item: CartLine): JsNum {
    Mul(item.product.price, item.quantity)
  }

  /** The page's `total`, a `reduce` from 0 without coercion: a number exactly when
      no price or quantity is NaN, and never `null`. */
  function Total(cart: seq<CartLine>): (r: JsNum)
    ensures r.Num? <==> forall i :: 0 <= i < |cart| ==> NoNaN(cart[i])
    ensures !r.Null?
  {
    if cart == [] then Num(0.0) else Add(Total(cart[..|cart| - 1]), LineTotal(cart[|cart| - 1]))
  }

  /** An empty cart totals 0. */
  lemma TotalEmpty()
    ensures Total([]) == Num(0.0)
  {
  }

  /** Three units at 2 and one at 5 total 11. */
  lemma TotalExample(p: Product, q: Product)
    requires p.price == Num(2.0) && q.price == Num(5.0)
    ensures Total([CartLine(p, Num(3.0)), CartLine(q, Num(1.0))]) == Num(11.0)
  {
    var cart := [CartLine(p, Num(3.0)), CartLine(q, Num(1.0))];
    assert cart[..1] == [CartLine(p, Num(3.0))];
    assert cart[..1][..0] == [];
    assert Total(cart[..1]) == Add(Total([]), LineTotal(cart[0])) == Num(6.0);
  }

  datatype CheckoutForm = CheckoutForm(
    address: string,
    phone: string,
    cardNumber: string,
    cardExpiration: string,
    cardCVC: string)

  const EmptyForm := CheckoutForm("", "", "", "", "")

  /** The `name` attribute of the input that changed. */
  datatype FormField = Address | Phone | CardNumber | CardExpiration | CardCVC

  function FieldValue(f: CheckoutForm, k: FormField): string {
    match k
    case Address => f.address
    case Phone => f.phone
    case CardNumber => f.cardNumber
    case CardExpiration => f.cardExpiration
    case CardCVC => f.cardCVC
  }

  /** The fields that only accept digits. */
  predicate DigitGated(k: FormField) {
    k == Phone || k == CardNumber || k == CardCVC
  }

  /** `handleChange`: a gated field ignores a value that fails `^\d*$`; otherwise the
      named field takes the value and every other field is kept. */
  function ApplyChange(f: CheckoutForm, k: FormField, value: string): (r: CheckoutForm)
    ensures DigitGated(k) && !AllDigits(value) ==> r == f
    ensures !(DigitGated(k) && !AllDigits(value)) ==>
              FieldValue(r, k) == value && forall j :: j != k ==> FieldValue(r, j) == FieldValue(f, j)
  {
    if DigitGated(k) && !AllDigits(value) then f
    else match k
      case Address => f.(address := value)
      case Phone => f.(phone := value)
      case CardNumber => f.(cardNumber := value)
      case CardExpiration => f.(cardExpiration := value)
      case CardCVC => f.(cardCVC := value)
  }

  /** Starting from digits, the gated fields hold only digits after any change. */
  lemma ChangeKeepsGatedDigits(f: CheckoutForm, k: FormField, value: string)
    requires AllDigits(f.phone) && AllDigits(f.cardNumber) && AllDigits(f.cardCVC)
    ensures var r := ApplyChange(f, k, value);
            AllDigits(r.phone) && AllDigits(r.cardNumber) && AllDigits(r.cardCVC)
  {
    var r := ApplyChange(f, k, value);
    assert FieldValue(r, Phone) == r.phone && FieldValue(r, CardNumber) == r.cardNumber;
    assert FieldValue(r, CardCVC) == r.cardCVC;
  }

  /** The e-mail template parameters. */
  datatype EmailParams = EmailParams(
    fullName: string,
    userEmail: string,
    userPhone: string,
    address: string,
    cardNumber: string,
    expiryDate: string,
    cvv: string)

  /** The payload sent at submit: the card fields are sent only when paying by card. */
  function EmailParamsFor(user: User, form: CheckoutForm, paymentMethod: string): (p: EmailParams)
    ensures p.fullName == user.name && p.userEmail == user.email
    ensures p.userPhone == form.phone && p.address == form.address
    ensures paymentMethod == "card" ==>
              p.cardNumber == form.cardNumber && p.expiryDate == form.cardExpiration && p.cvv == form.cardCVC
    ensures paymentMethod != "card" ==> p.cardNumber == "" && p.expiryDate == "" && p.cvv == ""
  {
    var card := paymentMethod == "card";
    EmailParams(user.name, user.email, form.phone, form.address,
                if card then form.cardNumber else "",
                if card then form.cardExpiration else "",
                if card then form.cardCVC else "")
  }

  /** One order line per cart line, in cart order. */
  function OrderLines(cart: seq<CartLine>): (lines: seq<OrderLine>)
    ensures |lines| == |cart|
    ensures forall i :: 0 <= i < |cart| ==>
              lines[i].name == cart[i].product.name && lines[i].quantity == cart[i].quantity
              && lines[i].price == cart[i].product.price && lines[i].totalPrice == LineTotal(cart[i])
  {
    seq(|cart|, i requires 0 <= i < |cart| =>
      OrderLine(cart[i].product.name, cart[i].quantity, cart[i].product.price, LineTotal(cart[i])))
  }

  /** The sum of the recorded line totals, left to right from 0. */
  function LinesTotal(lines: seq<OrderLine>): JsNum {
    if lines == [] then Num(0.0) else Add(LinesTotal(lines[..|lines| - 1]), lines[|lines| - 1].totalPrice)
  }

  /** The order record: the buyer, the shipping fields, the lines and the total. */
  function BuildOrder(user: User, form: CheckoutForm, cart: seq<CartLine>, now: string): (o: Order)
    ensures o.userId == user.id && o.userName == user.name
    ensures o.address == form.address && o.phone == form.phone && o.orderDate == now
    ensures o.cartItems == OrderLines(cart)
    ensures o.totalPrice == Total(cart)
    ensures o.totalPrice.Num? <==> forall i :: 0 <= i < |cart| ==> NoNaN(cart[i])
  {
    Order(user.id, user.name, form.address, form.phone, Total(cart), OrderLines(cart), now)
  }

  /** An order's total is the sum of its own line totals. */
  lemma {:induction false} OrderTotalIsSumOfLines(cart: seq<CartLine>)
    ensures LinesTotal(OrderLines(cart)) == Total(cart)
  {
    if cart != [] {
      var lines := OrderLines(cart);
      assert lines[..|lines| - 1] == OrderLines(cart[..|cart| - 1]);
      OrderTotalIsSumOfLines(cart[..|cart| - 1]);
    }
  }

  /** What a submit did. */
  datatype SubmitOutcome =
    | NotLoggedIn
    | MailFailed(email: EmailParams)
    | Placed(email: EmailParams, order: Order)

  /** The checkout page's state. The cart is the cart context's, which is outside
      this model, so it is given to each submit. */
  class CheckoutView {
    var formData: CheckoutForm
    var paymentMethod: string
    var isProcessing: bool
    const store: LocalStorage

    constructor (store: LocalStorage)
      ensures this.store == store
      ensures formData == EmptyForm && paymentMethod == "card" && !isProcessing
    {
      this.store := store;
      formData, paymentMethod, isProcessing := EmptyForm, "card", false;
    }

    /** `handleChange`. */
    method HandleChange(k: FormField, value: string)
      modifies this`formData
      ensures formData == ApplyChange(old(formData), k, value)
    {
      formData := ApplyChange(formData, k, value);
    }

    /** `handlePaymentChange`. */
    method HandlePaymentChange(method': string)
      modifies this`paymentMethod
      ensures paymentMethod == method'
    {
      paymentMethod := method';
    }

    /** `handleSubmit`. With nobody logged in nothing happens. Otherwise the e-mail is
        sent (`mailSent` is its outcome) and, only if it went out, the order is appended
        to the stored orders and written back as JSON; the earlier orders stay as they
        were. The cart is neither checked for emptiness nor cleared. */
    method HandleSubmit(user: Option<User>, cart: seq<CartLine>, now: string, mailSent: bool)
      returns (outcome: SubmitOutcome)
      requires store.Valid()
      modifies this`isProcessing, store`orders
      ensures store.Valid()
      ensures user.None? ==>
                outcome == NotLoggedIn && isProcessing == old(isProcessing) && store.orders == old(store.orders)
      ensures user.Some? ==> !isProcessing
      ensures user.Some? && !mailSent ==>
                outcome == MailFailed(EmailParamsFor(user.value, formData, paymentMethod))
                && store.orders == old(store.orders)
      ensures user.Some? && mailSent ==>
                outcome == Placed(EmailParamsFor(user.value, formData, paymentMethod),
                                  BuildOrder(user.value, formData, cart, now))
                && store.orders == Some(StoredOrders(old(store.Orders()) + [outcome.order]))
                && store.orders.value == old(store.Orders()) + [StoredOrder(outcome.order)]
    {
      if user.None? {
        return NotLoggedIn;
      }
      isProcessing := true;
      var email := EmailParamsFor(user.value, formData, paymentMethod);
      if mailSent {
        var order := BuildOrder(user.value, formData, cart, now);
        StoredOrdersAppend(store.Orders(), order);
        StoredRoundTrips([], [], store.Orders() + [order]);
        store.orders := Some(StoredOrders(store.Orders() + [order]));
        outcome := Placed(email, order);
      } else {
        outcome := MailFailed(email);
      }
      isProcessing := false;
    }
  }
}
