/** The checkout form (frontend CheckoutForm.jsx): the checks `handleSubmit` makes before it sends
    anything, the order body it sends, what happens after the request, and `calculateTotal`. The cart is
    the one the cart hook holds: its lines and its `totalPrice`. */
module CheckoutForm {
  import opened Common
  import opened OrderModel
  import opened FoodCatalog
  import CartModel
  import OrderController
  import CartSheet

  /** The form's fields, all text; `orderType` is 'delivery' or 'pickup' as the radio buttons set it. */
  datatype FormData = FormData(
    customerName: string,
    phone: string,
    email: string,
    address: string,
    city: string,
    pincode: string,
    orderType: string,
    paymentMethod: string,
    specialInstructions: string)

  /** The form as it first renders. */
  const InitialForm: FormData := FormData("", "", "", "", "", "", "delivery", "cod", "")

  /** A cart line as the hook holds it: the populated food's id ("" when the food is missing), the
      line's own id, its quantity and its `price` field (None when the line has none). */
  datatype CartLine = CartLine(foodId: string, id: string, quantity: int, price: Option<real>)

  /** The hook's cart: its lines and its `totalPrice` field (None when the field is undefined). */
  datatype CheckoutCart = CheckoutCart(items: seq<CartLine>, totalPrice: Option<real>)

  /** One line of the order body: `{ food, quantity, price }`. */
  datatype PayloadItem = PayloadItem(food: string, quantity: int, price: Option<real>)

  /** The order body: the form's fields, the lines and the amounts. None stands for an undefined
      `totalAmount`, which the request leaves out, and for a `finalAmount` that is not a number: NaN for a
      delivery (sent as null) or the undefined total itself for a pickup (left out). */
  datatype OrderPayload = OrderPayload(form: FormData, items: seq<PayloadItem>, totalAmount: Option<real>, deliveryFee: real,
                                       finalAmount: Option<real>)

  const MissingRequired: string := "Please fill in all required fields"
  const MissingAddress: string := "Please provide delivery address"
  const Placed: string := "Order placed successfully!"
  const PlaceFailed: string := "Failed to place order. Please try again."

  /** The delivery charge: 40 for a delivery, nothing for a pickup. */
  function DeliveryFee(orderType: string): (fee: real)
    ensures fee == 40.0 || fee == 0.0
    ensures fee == 40.0 <==> orderType == "delivery"
  {
    if orderType == "delivery" then 40.0 else 0.0
  }

  /** `subtotal + deliveryFee`, NaN (None) when the subtotal is undefined. */
  function AddFee(subtotal: Option<real>, orderType: string): Option<real>
  {
    if subtotal.Some? then Some(subtotal.value + DeliveryFee(orderType)) else None
  }

  /** `calculateTotal`: the cart's total plus the delivery charge; NaN when the cart has no `totalPrice`. */
  function CalculateTotal(form: FormData, cart: CheckoutCart): (t: Option<real>)
    ensures t.Some? <==> cart.totalPrice.Some?
    ensures t.Some? ==> t.value >= cart.totalPrice.value
    ensures t.Some? ==> (t.value == cart.totalPrice.value + 40.0 <==> form.orderType == "delivery")
  {
    AddFee(cart.totalPrice, form.orderType)
  }

  /** `cart.items.map(...)`: one line per cart line, in order, with `item.food?._id || item._id`. */
  function PayloadItems(items: seq<CartLine>): (r: seq<PayloadItem>)
    ensures |r| == |items|
    ensures forall k :: 0 <= k < |items| ==>
      r[k] == PayloadItem(OrElse(items[k].foodId, items[k].id), items[k].quantity, items[k].price)
  {
    seq(|items|, k requires 0 <= k < |items| => PayloadItem(OrElse(items[k].foodId, items[k].id), items[k].quantity, items[k].price))
  }

  /** `orderData`. */
  function Payload(form: FormData, cart: CheckoutCart): (p: OrderPayload)
    ensures p.form == form && p.items == PayloadItems(cart.items) && p.totalAmount == cart.totalPrice
    ensures p.deliveryFee == DeliveryFee(form.orderType)
    ensures p.finalAmount.Some? <==> cart.totalPrice.Some?
    ensures p.finalAmount.Some? ==>
      p.finalAmount.value == if form.orderType == "delivery" then cart.totalPrice.value + 40.0 else cart.totalPrice.value
  {
    OrderPayload(form, PayloadItems(cart.items), cart.totalPrice, DeliveryFee(form.orderType),
                 if cart.totalPrice.None? then None
                 else if form.orderType == "delivery" then Some(cart.totalPrice.value + 40.0) else cart.totalPrice)
  }

  /** The amount the form shows is the amount it sends, NaN included, and a defined amount is the cart
      total plus the charge. */
  lemma ShownTotalIsSent(form: FormData, cart: CheckoutCart)
    ensures CalculateTotal(form, cart) == Payload(form, cart).finalAmount
    ensures Payload(form, cart).finalAmount == AddFee(Payload(form, cart).totalAmount, form.orderType)
  {
  }

  /** The lines the hook holds after fetching a stored cart: `getCart` populates each line's food (null
      when it no longer exists), and a stored line has no `price` of its own. */
  function LinesOf(c: Catalog, items: seq<CartModel.CartItem>): (r: seq<CartLine>)
    ensures |r| == |items|
    ensures forall k :: 0 <= k < |items| ==>
      r[k].quantity == items[k].quantity && r[k].price == None &&
      r[k].foodId == if items[k].food in c.foods then items[k].food else ""
  {
    seq(|items|, k requires 0 <= k < |items| =>
      CartLine(if items[k].food in c.foods then items[k].food else "", "", items[k].quantity, None))
  }

  /** The hook's cart after `fetchCart`, as written: `setCart(response.data)` keeps the server's cart
      document, whose amount is `totalAmount`; it has no `totalPrice`. */
  function FetchedCartAsWritten(c: Catalog, server: CartModel.Cart): (cart: CheckoutCart)
    ensures cart.items == LinesOf(c, server.items) && cart.totalPrice == None
  {
    CheckoutCart(LinesOf(c, server.items), None)
  }

  /** As written, for any cart fetched from the server the form shows NaN as the total, and the order
      body carries an undefined `totalAmount` and a NaN `finalAmount`, for a delivery and a pickup alike. */
  lemma AsWrittenTotalIsNaN(form: FormData, c: Catalog, server: CartModel.Cart)
    ensures CalculateTotal(form, FetchedCartAsWritten(c, server)) == None
    ensures Payload(form, FetchedCartAsWritten(c, server)).totalAmount == None
    ensures Payload(form, FetchedCartAsWritten(c, server)).finalAmount == None
  {
  }

  /** The hook's cart as evidently meant: the server's `totalAmount` read as the total. */
  function FetchedCart(c: Catalog, server: CartModel.Cart): (cart: CheckoutCart)
    ensures cart == FetchedCartAsWritten(c, server).(totalPrice := Some(server.totalAmount))
  {
    CheckoutCart(LinesOf(c, server.items), Some(server.totalAmount))
  }

  /** Reading `totalAmount`, the total the form shows and sends for a cart the server saved is the
      catalog-priced total of its entries plus the delivery charge, the same amount the cart sheet's
      corrected total gives. */
  lemma CheckoutTotalMatchesServer(form: FormData, c: Catalog, server: CartModel.Cart)
    requires server.totalAmount == CartModel.SavedTotal(c, server)
    requires OrderController.AllPopulated(c, server.items) && !CartModel.LookupFails(c, server.items)
    ensures CalculateTotal(form, FetchedCart(c, server)) ==
      Some(CartModel.PricedTotal(c, server.items) + DeliveryFee(form.orderType))
    ensures Payload(form, FetchedCart(c, server)).finalAmount == CalculateTotal(form, FetchedCart(c, server))
    ensures CartSheet.CalculateTotal(CartSheet.SheetItemsOf(c, server.items)) == Some(CartModel.PricedTotal(c, server.items))
  {
    CartSheet.SheetTotalMatchesServer(c, server.items);
  }

  /** What `handleSubmit` ends with: refused with a message and nothing sent, or the body it sends. */
  datatype Submission = Refused(message: string) | Sent(payload: OrderPayload)

  /** The checks before the request: a name and a phone always, an address for a delivery. */
  function Submit(form: FormData, cart: CheckoutCart): (r: Submission)
    ensures form.customerName == "" || form.phone == "" ==> r == Refused(MissingRequired)
    ensures form.customerName != "" && form.phone != "" && form.orderType == "delivery" && form.address == "" ==>
      r == Refused(MissingAddress)
    ensures r.Sent? <==> form.customerName != "" && form.phone != "" && (form.orderType != "delivery" || form.address != "")
    ensures r.Sent? ==> r.payload == Payload(form, cart)
  {
    if form.customerName == "" || form.phone == "" then Refused(MissingRequired)
    else if form.orderType == "delivery" && form.address == "" then Refused(MissingAddress)
    else Sent(Payload(form, cart))
  }

  /** A pickup needs no address. */
  lemma PickupWithoutAddress(form: FormData, cart: CheckoutCart)
    requires form.customerName != "" && form.phone != "" && form.orderType == "pickup" && form.address == ""
    ensures Submit(form, cart) == Sent(Payload(form, cart))
  {
  }

  /** What the user sees happen: whether the request went out, whether the cart was emptied, whether
      the success callback ran, and the notices shown, in order. */
  datatype Effects = Effects(sent: Option<OrderPayload>, cartCleared: bool, succeeded: bool, toasts: seq<string>)

  /** `handleSubmit` through to its end. The request may fail, and so may emptying the cart, which the
      hook rethrows; either failure lands in the same catch. */
  function SubmitEffects(form: FormData, cart: CheckoutCart, requestOk: bool, clearOk: bool, hasOnSuccess: bool): (e: Effects)
    ensures e.sent.Some? <==> Submit(form, cart).Sent?
    ensures e.sent.Some? ==> e.sent.value == Payload(form, cart)
    ensures e.cartCleared <==> e.sent.Some? && requestOk && clearOk
    ensures e.succeeded <==> e.cartCleared && hasOnSuccess
    ensures e.sent.Some? && !requestOk ==> e.toasts == [PlaceFailed]
  {
    match Submit(form, cart)
    case Refused(m) => Effects(None, false, false, [m])
    case Sent(p) =>
      if !requestOk then Effects(Some(p), false, false, [PlaceFailed])
      else if !clearOk then Effects(Some(p), false, false, [Placed, PlaceFailed])
      else Effects(Some(p), true, hasOnSuccess, [Placed])
  }

  /** The body fields the server reads from the checkout's request, as written: the form's `orderType`
      goes through unchanged. */
  function RequestAsWritten(p: OrderPayload): (r: OrderController.CartOrderRequest)
    ensures r.orderType == Some(p.form.orderType)
    ensures p.form.orderType == "delivery" || p.form.orderType == "pickup" ==> r.orderType.value !in OrderModel.OrderTypeValues
  {
    OrderController.CartOrderRequest("", p.form.specialInstructions, Some(p.form.orderType), p.form.phone,
                                     p.form.customerName, p.form.address, p.form.paymentMethod)
  }

  /** The radio buttons' values are lower-case; the order schema's are capitalised, so an order built
      from the checkout's request fails validation and the server answers 500. */
  lemma AsWrittenCheckoutRejected(caller: Caller, form: FormData, cart: CheckoutCart, serverCart: CartModel.Cart,
                                  lines: seq<OrderItem>, id: string, now: int)
    requires Submit(form, cart).Sent?
    requires form.orderType == "delivery" || form.orderType == "pickup"
    ensures !OrderModel.Conforms(OrderController.CartOrder(caller, RequestAsWritten(Payload(form, cart)), serverCart, lines, id, now))
  {
  }

  /** The schema's spelling of the radio buttons' values. */
  function SchemaOrderType(t: string): (r: string)
    ensures t == "delivery" ==> r == "Delivery"
    ensures t == "pickup" ==> r == "Pickup"
  {
    if t == "delivery" then "Delivery" else if t == "pickup" then "Pickup" else t
  }

  /** The request the checkout evidently means to send: the order type in the schema's spelling. */
  function Request(p: OrderPayload): (r: OrderController.CartOrderRequest)
    ensures r == RequestAsWritten(p).(orderType := Some(SchemaOrderType(p.form.orderType)))
    ensures p.form.orderType == "delivery" || p.form.orderType == "pickup" ==> r.orderType.value in OrderModel.OrderTypeValues
  {
    OrderController.CartOrderRequest("", p.form.specialInstructions, Some(SchemaOrderType(p.form.orderType)), p.form.phone,
                                     p.form.customerName, p.form.address, p.form.paymentMethod)
  }

  /** With the schema's spelling, every checkout the form lets through yields an order that passes
      validation, for a delivery and for a pickup alike. */
  lemma CheckoutConforms(caller: Caller, form: FormData, cart: CheckoutCart, serverCart: CartModel.Cart, c: Catalog,
                         id: string, now: int)
    requires Submit(form, cart).Sent?
    requires form.orderType == "delivery" || form.orderType == "pickup"
    requires CartModel.Conforms(serverCart) && OrderController.AllPopulated(c, serverCart.items)
    ensures OrderModel.Conforms(OrderController.CartOrder(caller, Request(Payload(form, cart)), serverCart,
                                                         OrderController.OrderLines(c, serverCart.items).value, id, now))
  {
    OrderController.CartOrderConforms(caller, Request(Payload(form, cart)), serverCart, c, id, now);
  }
}
