/** The order endpoints (backend/controllers/orderController.js): creating an order from a request
    body or from the caller's cart, the tracking view with its ownership check, and the admin's status
    update and delivery confirmation. Each endpoint loads documents, edits them, saves them through the
    collection and then notifies; errors become status codes. */
module OrderController {
  import opened Common
  import opened OrderModel
  import opened FoodCatalog
  import opened CartModel
  import opened NotificationService
  import opened EmailService

  const OrderNotFound: string := "Order not found"
  const AccessDenied: string := "Access denied"
  const CartIsEmpty: string := "Cart is empty"
  const CreatedFromCart: string := "Order created successfully from cart"
  const StatusUpdated: string := "Order status updated successfully"
  const MarkedDelivered: string := "Order marked as delivered"
  const CreatedFromCartNote: string := "Order created from cart"
  const DeliveredNote: string := "Order delivered successfully"
  /** The TypeError of reading `_id` of a cart entry whose food no longer exists. */
  const NullFood: string := "Cannot read properties of null (reading '_id')"
  /** The TypeError of assigning into an order without delivery details. */
  const NoDeliveryDetails: string := "Cannot set properties of undefined"

  /** Every cart entry's food still exists, so `populate` filled it in. */
  predicate AllPopulated(c: Catalog, items: seq<CartItem>)
  {
    forall k :: 0 <= k < |items| ==> items[k].food in c.foods
  }

  /** One order line per cart entry, priced from the catalog: `{food, quantity, price, total}`. */
  function OrderLines(c: Catalog, items: seq<CartItem>): (r: Option<seq<OrderItem>>)
    ensures r.Some? <==> AllPopulated(c, items)
    ensures r.Some? ==> |r.value| == |items|
    ensures r.Some? ==> forall k :: 0 <= k < |items| ==>
      r.value[k].food == items[k].food && r.value[k].quantity == items[k].quantity &&
      r.value[k].price == c.foods[items[k].food].price &&
      r.value[k].total == r.value[k].price * items[k].quantity as real
  {
    if AllPopulated(c, items) then
      Some(seq(|items|, k requires 0 <= k < |items| =>
        var price := c.foods[items[k].food].price;
        OrderItem(items[k].food, items[k].quantity, price, price * items[k].quantity as real)))
    else None
  }

  /** The order lines add up to the cart's priced total. */
  lemma {:induction false} LinesTotal(c: Catalog, items: seq<CartItem>)
    requires AllPopulated(c, items)
    ensures ItemsTotal(OrderLines(c, items).value) == PricedTotal(c, items)
    decreases |items|
  {
    if items != [] {
      var tail := items[1..];
      LinesOfTail(c, items);
      LinesTotal(c, tail);
      PricedTotalFirst(c, items);
    }
  }

  /** Dropping the first cart entry drops the first order line. */
  lemma LinesOfTail(c: Catalog, items: seq<CartItem>)
    requires AllPopulated(c, items) && items != []
    ensures AllPopulated(c, items[1..])
    ensures OrderLines(c, items[1..]).value == OrderLines(c, items).value[1..]
    ensures OrderLines(c, items).value[0].total == LineAmount(c, items[0])
  {
    var tail := items[1..];
    assert AllPopulated(c, tail) by {
      forall k | 0 <= k < |tail| ensures tail[k].food in c.foods {
        assert tail[k] == items[k + 1];
      }
    }
    var lines, rest := OrderLines(c, items).value, OrderLines(c, tail).value;
    forall k | 0 <= k < |rest| ensures rest[k] == lines[1..][k] {
      assert tail[k] == items[k + 1];
    }
  }

  /** The priced total split after the first entry. */
  lemma PricedTotalFirst(c: Catalog, items: seq<CartItem>)
    requires items != []
    ensures PricedTotal(c, items) == LineAmount(c, items[0]) + PricedTotal(c, items[1..])
  {
    PricedTotalAppend(c, [items[0]], items[1..]);
    assert [items[0]] + items[1..] == items;
    assert [items[0]][..0] == [];
  }

  /** The order copies the cart's saved `totalAmount`; when the cart was last saved against the same
      catalog without a failed lookup, that is exactly the sum of the order's line totals. */
  lemma CartOrderTotal(c: Catalog, cart: Cart)
    requires AllPopulated(c, cart.items) && !LookupFails(c, cart.items)
    requires cart.totalAmount == SavedTotal(c, cart)
    ensures ItemsTotal(OrderLines(c, cart.items).value) == cart.totalAmount
  {
    LinesTotal(c, cart.items);
  }

  /** The body fields `createOrderFromCart` reads; `""` stands for an absent field. Fields the order
      schema does not have (email, city, pincode) are dropped by Mongoose and left out. */
  datatype CartOrderRequest = CartOrderRequest(
    deliveryAddress: string,
    specialInstructions: string,
    orderType: Option<string>,
    phone: string,
    customerName: string,
    address: string,
    paymentMethod: string)

  /** `orderType = 'Delivery'`: the default applies only when the field is absent. */
  function OrderTypeOf(t: Option<string>): string
  {
    if t.Some? then t.value else "Delivery"
  }

  /** The order `createOrderFromCart` builds from the caller's cart. */
  function CartOrder(caller: Caller, req: CartOrderRequest, cart: Cart, lines: seq<OrderItem>, id: string, now: int): (o: Order)
    ensures o.id == id && o.userId == Some(caller.id) && o.items == lines && o.totalAmount == cart.totalAmount
    ensures o.status == "Pending" && o.statusHistory == [HistoryEntry("Pending", now, None, CreatedFromCartNote)]
    ensures o.customerName == OrElse(req.customerName, caller.name) && o.orderType == OrderTypeOf(req.orderType)
    ensures o.paymentStatus == "Pending" && o.adminNotes == ""
    ensures o.deliveryDetails.Some? && o.deliveryDetails.value.address != ""
  {
    Order(id, OrElse(req.customerName, caller.name), Some(caller.id), lines, cart.totalAmount, "Pending",
          [HistoryEntry("Pending", now, None, CreatedFromCartNote)],
          Some(DeliveryDetails(OrElse(req.address, OrElse(req.deliveryAddress, "Not specified")),
                               OrElse(req.phone, caller.phone), None, None, "", "")),
          None, req.specialInstructions, "", "Pending", OrElse(req.paymentMethod, "cod"), OrderTypeOf(req.orderType), "Normal")
  }

  /** The order passes validation exactly when it has a customer name and a known order type. */
  lemma CartOrderConforms(caller: Caller, req: CartOrderRequest, cart: Cart, c: Catalog, id: string, now: int)
    requires CartModel.Conforms(cart) && AllPopulated(c, cart.items)
    ensures OrderModel.Conforms(CartOrder(caller, req, cart, OrderLines(c, cart.items).value, id, now)) <==>
      OrElse(req.customerName, caller.name) != "" && OrderTypeOf(req.orderType) in OrderTypeValues
  {
    var o := CartOrder(caller, req, cart, OrderLines(c, cart.items).value, id, now);
    assert o.status in StatusValues;
    assert o.priority in PriorityValues;
    assert o.paymentStatus in PaymentStatusValues;
  }

  /** Because `status` is given explicitly on a new document, the hook adds a second Pending entry:
      a saved cart order starts with two. */
  lemma CartOrderStartsTwicePending(caller: Caller, req: CartOrderRequest, cart: Cart, lines: seq<OrderItem>, id: string, now: int)
    ensures var saved := AfterHook(CartOrder(caller, req, cart, lines, id, now), true, now);
      saved.statusHistory == [HistoryEntry("Pending", now, None, CreatedFromCartNote), HistoryEntry("Pending", now, None, "")]
  {
  }

  /** `cart.items = []; cart.totalAmount = 0; await cart.save()`: the result is not inspected. */
  method ClearCart(carts: CartStore, c: Catalog, cart: Cart)
    requires carts.Valid() && cart.user in carts.carts && carts.carts[cart.user] == cart
    modifies carts
    ensures carts.Valid()
    ensures carts.carts == old(carts.carts)[cart.user := cart.(items := [], totalAmount := 0.0)]
  {
    var doc := new CartDoc.Load(cart);
    doc.ClearItems();
    doc.SetTotalAmount(0.0);
    var cleared := carts.Save(doc, c);
  }

  /** The notification block of both create endpoints: the admin e-mail, and the socket event only
      when the e-mail went out (or there was nothing to send); an e-mail error is logged and swallowed. */
  method AnnounceOrder(hub: Hub, mailer: Mailer, env: Env, adminsInDb: Result<seq<string>>, smtpError: Option<string>,
                       c: Catalog, o: Order, now: int)
    requires mailer.Valid()
    modifies hub`sent, mailer
    ensures mailer.Valid()
    ensures mailer.outbox == old(mailer.outbox) + EmailsSent(old(mailer.cached), env, adminsInDb, smtpError, o, c)
    ensures hub.sent == old(hub.sent) + (if EmailFails(old(mailer.cached), env, adminsInDb, smtpError) then [] else hub.AdminEmissions(o, now))
  {
    ghost var cachedBefore, outboxBefore := mailer.cached, mailer.outbox;
    var email := mailer.SendOrderPlacedEmail(env, o, c, adminsInDb, smtpError);
    SendOutcomes(cachedBefore, env, adminsInDb, smtpError, o, c, email, outboxBefore, mailer.outbox);
    if email.Ok? {
      hub.NotifyAdminNewOrder(o, now);
    }
  }

  /** `createOrderFromCart`. Order ids the database generates are fresh. */
  method CreateOrderFromCart(store: OrderStore, carts: CartStore, c: Catalog, hub: Hub, mailer: Mailer,
                             env: Env, adminsInDb: Result<seq<string>>, smtpError: Option<string>,
                             caller: Caller, req: CartOrderRequest, newId: string, now: int) returns (resp: Response)
    requires store.Valid() && carts.Valid() && mailer.Valid()
    requires newId !in store.orders
    modifies store, carts, hub`sent, mailer
    ensures store.Valid() && carts.Valid() && mailer.Valid()
    ensures caller.id !in old(carts.carts) || old(carts.carts)[caller.id].items == [] ==>
      resp == Response(400, CartIsEmpty) && store.orders == old(store.orders) && carts.carts == old(carts.carts) &&
      hub.sent == old(hub.sent) && mailer.outbox == old(mailer.outbox)
    ensures caller.id in old(carts.carts) && old(carts.carts)[caller.id].items != [] ==>
      var cart := old(carts.carts)[caller.id];
      var lines := OrderLines(c, cart.items);
      (lines.None? ==>
        resp == Response(500, NullFood) && store.orders == old(store.orders) && carts.carts == old(carts.carts) &&
        hub.sent == old(hub.sent) && mailer.outbox == old(mailer.outbox)) &&
      (lines.Some? && !OrderModel.Conforms(CartOrder(caller, req, cart, lines.value, newId, now)) ==>
        resp == Response(500, ValidationFailed) && store.orders == old(store.orders) && carts.carts == old(carts.carts) &&
        hub.sent == old(hub.sent) && mailer.outbox == old(mailer.outbox)) &&
      (lines.Some? && OrderModel.Conforms(CartOrder(caller, req, cart, lines.value, newId, now)) ==>
        var saved := AfterHook(CartOrder(caller, req, cart, lines.value, newId, now), true, now);
        resp == Response(201, CreatedFromCart) &&
        store.orders == old(store.orders)[newId := saved] &&
        carts.carts == old(carts.carts)[caller.id := cart.(items := [], totalAmount := 0.0)] &&
        mailer.outbox == old(mailer.outbox) + EmailsSent(old(mailer.cached), env, adminsInDb, smtpError, saved, c) &&
        hub.sent == old(hub.sent) +
          (if EmailFails(old(mailer.cached), env, adminsInDb, smtpError) then [] else hub.AdminEmissions(saved, now)))
  {
    var found := carts.FindByUser(caller.id);
    if found.None? || found.value.items == [] {
      return Response(400, CartIsEmpty);
    }
    var cart := found.value;
    var lines := OrderLines(c, cart.items);
    if lines.None? {
      return Response(500, NullFood);
    }
    var doc := new OrderDoc.Create(CartOrder(caller, req, cart, lines.value, newId, now), true);
    var saved := store.Save(doc, now);
    if saved.Err? {
      return Response(500, saved.message);
    }
    ClearCart(carts, c, cart);
    AnnounceOrder(hub, mailer, env, adminsInDb, smtpError, c, saved.value, now);
    resp := Response(201, CreatedFromCart);
  }

  /** `createOrder`: the body becomes a new order (`statusGiven` says whether it named a status, which
      makes the hook add an entry); once it is saved, a failing e-mail only skips the admin notification
      and the reply is still 201. */
  method CreateOrder(store: OrderStore, c: Catalog, hub: Hub, mailer: Mailer, env: Env,
                     adminsInDb: Result<seq<string>>, smtpError: Option<string>,
                     body: Order, statusGiven: bool, now: int) returns (resp: Response)
    requires store.Valid() && mailer.Valid()
    requires body.id !in store.orders
    modifies store, hub`sent, mailer
    ensures store.Valid() && mailer.Valid()
    ensures resp.code == 201 <==> OrderModel.Conforms(body)
    ensures !OrderModel.Conforms(body) ==>
      resp == Response(500, ValidationFailed) && store.orders == old(store.orders) &&
      hub.sent == old(hub.sent) && mailer.outbox == old(mailer.outbox)
    ensures OrderModel.Conforms(body) ==>
      var saved := AfterHook(body, statusGiven, now);
      store.orders == old(store.orders)[body.id := saved] &&
      mailer.outbox == old(mailer.outbox) + EmailsSent(old(mailer.cached), env, adminsInDb, smtpError, saved, c) &&
      hub.sent == old(hub.sent) +
        (if EmailFails(old(mailer.cached), env, adminsInDb, smtpError) then [] else hub.AdminEmissions(saved, now))
  {
    var doc := new OrderDoc.Create(body, statusGiven);
    var saved := store.Save(doc, now);
    if saved.Err? {
      return Response(500, saved.message);
    }
    AnnounceOrder(hub, mailer, env, adminsInDb, smtpError, c, saved.value, now);
    resp := Response(201, "");
  }

  /** The `tracking` object of the tracking view. */
  datatype Tracking = Tracking(currentStatus: string, statusHistory: seq<HistoryEntry>, estimatedDelivery: Option<int>,
                               totalDuration: int, statusDuration: int)

  /** `order.deliveryDetails?.estimatedTime`. */
  function EstimatedTime(o: Order): Option<int>
  {
    if o.deliveryDetails.Some? then o.deliveryDetails.value.estimatedTime else None
  }

  /** `getOrderTracking`: 404 for an unknown order, 403 unless the caller is an admin or the owner. */
  function GetOrderTracking(orders: map<string, Order>, caller: Caller, orderId: string, now: int): (r: Reply<Tracking>)
    ensures orderId !in orders ==> r == Reply(404, OrderNotFound, None)
    ensures orderId in orders && !MayAccess(caller.role, caller.id, orders[orderId]) ==> r == Reply(403, AccessDenied, None)
    ensures r.code == 200 <==> orderId in orders && MayAccess(caller.role, caller.id, orders[orderId])
    ensures r.code == 200 ==> r.body.Some?
    ensures r.code == 200 ==>
      r.body.value.currentStatus == orders[orderId].status && r.body.value.statusHistory == orders[orderId].statusHistory &&
      r.body.value.estimatedDelivery == EstimatedTime(orders[orderId]) &&
      r.body.value.totalDuration == TotalDuration(orders[orderId], now) &&
      r.body.value.statusDuration == StatusDuration(orders[orderId], now)
  {
    if orderId !in orders then Reply(404, OrderNotFound, None)
    else
      var o := orders[orderId];
      if !MayAccess(caller.role, caller.id, o) then Reply(403, AccessDenied, None)
      else Reply(200, "", Some(TrackingOf(o, now)))
  }

  /** The `tracking` view of a stored order at time `now`. */
  function TrackingOf(o: Order, now: int): Tracking
  {
    Tracking(o.status, o.statusHistory, EstimatedTime(o), TotalDuration(o, now), StatusDuration(o, now))
  }

  /** `getOrderTracking` as written: the owner test compares the printed populated user, `inspect` of
      the owner id, with the caller's id. */
  function GetOrderTrackingAsWritten(orders: map<string, Order>, caller: Caller, orderId: string, now: int,
                                     inspect: string -> string): (r: Reply<Tracking>)
    ensures orderId !in orders ==> r == Reply(404, OrderNotFound, None)
    ensures r.code == 200 <==> orderId in orders && MayAccessPopulated(caller.role, caller.id, orders[orderId], inspect)
  {
    if orderId !in orders then Reply(404, OrderNotFound, None)
    else
      var o := orders[orderId];
      if !MayAccessPopulated(caller.role, caller.id, o, inspect) then Reply(403, AccessDenied, None)
      else Reply(200, "", Some(TrackingOf(o, now)))
  }

  /** As written, the owner of an order who is not an admin is refused its tracking view, which the
      corrected check grants. */
  lemma AsWrittenTrackingDeniesOwner(orders: map<string, Order>, caller: Caller, orderId: string, now: int,
                                     inspect: string -> string)
    requires orderId in orders && caller.role != "admin" && orders[orderId].userId == Some(caller.id)
    requires |inspect(caller.id)| > 0 && inspect(caller.id)[0] == '{'
    requires caller.id == "" || caller.id[0] != '{'
    ensures GetOrderTrackingAsWritten(orders, caller, orderId, now, inspect) == Reply(403, AccessDenied, None)
    ensures GetOrderTracking(orders, caller, orderId, now).code == 200
  {
    PopulatedCheckAdminsOnly(caller.role, caller.id, orders[orderId], inspect);
  }

  /** The view never shows the current status as older than the whole order. */
  lemma TrackingDurationsOrdered(orders: map<string, Order>, caller: Caller, orderId: string, now: int)
    requires orderId in orders && TimestampsOrdered(orders[orderId].statusHistory)
    ensures var r := GetOrderTracking(orders, caller, orderId, now);
      r.code == 200 ==> r.body.value.totalDuration >= r.body.value.statusDuration
  {
    TotalDurationCoversStatusDuration(orders[orderId], now);
  }

  /** The body fields `updateOrderStatus` reads; `""` and None stand for absent fields. */
  datatype StatusRequest = StatusRequest(status: string, notes: string, estimatedDeliveryTime: Option<int>,
                                         deliveryPerson: string, deliveryNotes: string)

  /** The request writes into the delivery details. */
  predicate TouchesDelivery(req: StatusRequest)
  {
    req.estimatedDeliveryTime.Some? || req.deliveryPerson != "" || req.deliveryNotes != ""
  }

  /** The delivery details after the request's delivery fields were copied in. */
  function DeliveryEdit(d: DeliveryDetails, req: StatusRequest): DeliveryDetails
  {
    d.(estimatedTime := if req.estimatedDeliveryTime.Some? then req.estimatedDeliveryTime else d.estimatedTime,
       deliveryPerson := OrElse(req.deliveryPerson, d.deliveryPerson),
       deliveryNotes := OrElse(req.deliveryNotes, d.deliveryNotes))
  }

  /** The status really changes: a status was given and it differs from the current one. */
  predicate ChangesStatus(o: Order, req: StatusRequest)
  {
    req.status != "" && req.status != o.status
  }

  /** The record `updateOrderStatus` hands to `save`, or None when it writes a delivery field of an
      order that has no delivery details (a TypeError). */
  function StatusEdit(o: Order, req: StatusRequest, callerId: string, now: int): (r: Option<Order>)
    ensures r.None? <==> TouchesDelivery(req) && o.deliveryDetails.None?
    ensures r.Some? ==>
      r.value.id == o.id && r.value.userId == o.userId &&
      r.value.status == OrElse(req.status, o.status) && r.value.adminNotes == OrElse(req.notes, o.adminNotes) &&
      r.value.statusHistory == o.statusHistory +
        (if ChangesStatus(o, req) then [HistoryEntry(req.status, now, Some(callerId), req.notes)] else [])
  {
    if TouchesDelivery(req) && o.deliveryDetails.None? then None
    else
      Some(o.(status := OrElse(req.status, o.status),
              adminNotes := OrElse(req.notes, o.adminNotes),
              deliveryDetails := if o.deliveryDetails.Some? then Some(DeliveryEdit(o.deliveryDetails.value, req)) else None,
              statusHistory := o.statusHistory +
                (if ChangesStatus(o, req) then [HistoryEntry(req.status, now, Some(callerId), req.notes)] else [])))
  }

  /** A real change is recorded twice, once by the controller (with the admin and the notes) and once by
      the save hook; anything else leaves the history as it was. */
  lemma UpdateHistory(o: Order, req: StatusRequest, callerId: string, now: int)
    requires StatusEdit(o, req, callerId, now).Some?
    ensures var saved := AfterHook(StatusEdit(o, req, callerId, now).value, ChangesStatus(o, req), now);
      (ChangesStatus(o, req) ==>
        saved.statusHistory == o.statusHistory +
          [HistoryEntry(req.status, now, Some(callerId), req.notes), HistoryEntry(req.status, now, None, OrElse(req.notes, o.adminNotes))]) &&
      (!ChangesStatus(o, req) ==> saved.statusHistory == o.statusHistory && saved.status == o.status)
  {
  }

  /** The edit of a valid order is valid exactly when the status given, if any, is one of the eight. */
  lemma StatusEditConforms(o: Order, req: StatusRequest, callerId: string, now: int)
    requires OrderModel.Conforms(o) && StatusEdit(o, req, callerId, now).Some?
    ensures OrderModel.Conforms(StatusEdit(o, req, callerId, now).value) <==> req.status == "" || req.status in StatusValues
  {
    var r := StatusEdit(o, req, callerId, now).value;
    if req.status == "" || req.status in StatusValues {
      forall k | 0 <= k < |r.statusHistory|
        ensures r.statusHistory[k].status in StatusValues
      {
        if k < |o.statusHistory| {
          assert r.statusHistory[k] == o.statusHistory[k];
        }
      }
    }
  }

  /** Omitting the status reports `statusChanged: true` although nothing changed. */
  lemma OmittedStatusReportedChanged(o: Order, req: StatusRequest, callerId: string, now: int)
    requires OrderModel.Conforms(o) && req.status == "" && StatusEdit(o, req, callerId, now).Some?
    ensures req.status != o.status
    ensures StatusEdit(o, req, callerId, now).value.statusHistory == o.statusHistory
  {
    assert o.status in StatusValues;
  }

  /** `updateOrderStatus`; `statusChanged` is the response field. */
  method UpdateOrderStatus(store: OrderStore, hub: Hub, caller: Caller, orderId: string, req: StatusRequest, now: int)
    returns (resp: Response, statusChanged: bool)
    requires store.Valid()
    modifies store, hub`sent
    ensures store.Valid()
    ensures orderId !in old(store.orders) ==>
      resp == Response(404, OrderNotFound) && store.orders == old(store.orders) && hub.sent == old(hub.sent)
    ensures orderId in old(store.orders) ==>
      var o := old(store.orders)[orderId];
      var edit := StatusEdit(o, req, caller.id, now);
      (edit.None? ==> resp == Response(500, NoDeliveryDetails) && store.orders == old(store.orders) && hub.sent == old(hub.sent)) &&
      (edit.Some? && !OrderModel.Conforms(edit.value) ==>
        resp == Response(500, ValidationFailed) && store.orders == old(store.orders) && hub.sent == old(hub.sent)) &&
      (edit.Some? && OrderModel.Conforms(edit.value) ==>
        var saved := AfterHook(edit.value, ChangesStatus(o, req), now);
        resp == Response(200, StatusUpdated) && statusChanged == (req.status != o.status) &&
        store.orders == old(store.orders)[orderId := saved] &&
        hub.sent == old(hub.sent) + (if ChangesStatus(o, req) then hub.StatusEmissions(saved.userId, saved, req.status, now) else []))
  {
    var found := store.Find(orderId);
    if found.None? {
      return Response(404, OrderNotFound), false;
    }
    var doc := new OrderDoc.Load(found.value);
    var oldStatus := doc.rec.status;
    if req.status != "" {
      doc.SetStatus(req.status);
    }
    if req.notes != "" {
      doc.SetAdminNotes(req.notes);
    }
    if TouchesDelivery(req) && doc.rec.deliveryDetails.None? {
      return Response(500, NoDeliveryDetails), false;
    }
    if TouchesDelivery(req) {
      doc.SetDeliveryDetails(DeliveryEdit(doc.rec.deliveryDetails.value, req));
    }
    if req.status != "" && req.status != oldStatus {
      doc.PushHistory(HistoryEntry(req.status, now, Some(caller.id), req.notes));
    }
    assert doc.rec == StatusEdit(found.value, req, caller.id, now).value;
    var saved := store.Save(doc, now);
    if saved.Err? {
      return Response(500, saved.message), false;
    }
    if req.status != "" && req.status != oldStatus {
      hub.NotifyOwner(saved.value.userId, saved.value, req.status, now);
    }
    resp, statusChanged := Response(200, StatusUpdated), req.status != oldStatus;
  }

  /** The record `markOrderDelivered` hands to `save`, or None when the order has no delivery details. */
  function DeliveredEdit(o: Order, deliveryNotes: string, callerId: string, now: int): (r: Option<Order>)
    ensures r.None? <==> o.deliveryDetails.None?
    ensures r.Some? ==>
      r.value.id == o.id && r.value.userId == o.userId && r.value.status == "Delivered" &&
      r.value.deliveryDetails.Some? && r.value.deliveryDetails.value.actualDeliveryTime == Some(now) &&
      r.value.statusHistory == o.statusHistory + [HistoryEntry("Delivered", now, Some(callerId), OrElse(deliveryNotes, DeliveredNote))]
  {
    if o.deliveryDetails.None? then None
    else
      var d := o.deliveryDetails.value;
      Some(o.(status := "Delivered",
              deliveryDetails := Some(d.(actualDeliveryTime := Some(now), deliveryNotes := OrElse(deliveryNotes, d.deliveryNotes))),
              statusHistory := o.statusHistory + [HistoryEntry("Delivered", now, Some(callerId), OrElse(deliveryNotes, DeliveredNote))]))
  }

  /** Confirming a delivery always appends a Delivered entry, even for an order already Delivered; the
      save hook adds a second one when the status actually changed. A valid order stays valid. */
  lemma DeliveredHistory(o: Order, deliveryNotes: string, callerId: string, now: int)
    requires DeliveredEdit(o, deliveryNotes, callerId, now).Some?
    ensures var saved := AfterHook(DeliveredEdit(o, deliveryNotes, callerId, now).value, o.status != "Delivered", now);
      |saved.statusHistory| == |o.statusHistory| + (if o.status != "Delivered" then 2 else 1) &&
      saved.statusHistory[..|o.statusHistory|] == o.statusHistory &&
      saved.statusHistory[|o.statusHistory|].status == "Delivered" &&
      saved.statusHistory[|saved.statusHistory| - 1].status == "Delivered"
    ensures OrderModel.Conforms(o) ==> OrderModel.Conforms(DeliveredEdit(o, deliveryNotes, callerId, now).value)
  {
    var e := DeliveredEdit(o, deliveryNotes, callerId, now).value;
    var saved := AfterHook(e, o.status != "Delivered", now);
    assert saved.statusHistory[..|o.statusHistory|] == o.statusHistory;
    if OrderModel.Conforms(o) {
      forall k | 0 <= k < |e.statusHistory|
        ensures e.statusHistory[k].status in StatusValues
      {
        if k < |o.statusHistory| {
          assert e.statusHistory[k] == o.statusHistory[k];
        }
      }
    }
  }

  /** `markOrderDelivered`. */
  method MarkOrderDelivered(store: OrderStore, hub: Hub, caller: Caller, orderId: string, deliveryNotes: string, now: int)
    returns (resp: Response)
    requires store.Valid()
    modifies store, hub`sent
    ensures store.Valid()
    ensures orderId !in old(store.orders) ==>
      resp == Response(404, OrderNotFound) && store.orders == old(store.orders) && hub.sent == old(hub.sent)
    ensures orderId in old(store.orders) && old(store.orders)[orderId].deliveryDetails.None? ==>
      resp == Response(500, NoDeliveryDetails) && store.orders == old(store.orders) && hub.sent == old(hub.sent)
    ensures orderId in old(store.orders) && old(store.orders)[orderId].deliveryDetails.Some? ==>
      var o := old(store.orders)[orderId];
      var saved := AfterHook(DeliveredEdit(o, deliveryNotes, caller.id, now).value, o.status != "Delivered", now);
      resp == Response(200, MarkedDelivered) && store.orders == old(store.orders)[orderId := saved] &&
      hub.sent == old(hub.sent) + hub.StatusEmissions(saved.userId, saved, "Delivered", now)
  {
    var found := store.Find(orderId);
    if found.None? {
      return Response(404, OrderNotFound);
    }
    var doc := new OrderDoc.Load(found.value);
    doc.SetStatus("Delivered");
    if doc.rec.deliveryDetails.None? {
      return Response(500, NoDeliveryDetails);
    }
    var d := doc.rec.deliveryDetails.value;
    doc.SetDeliveryDetails(d.(actualDeliveryTime := Some(now), deliveryNotes := OrElse(deliveryNotes, d.deliveryNotes)));
    doc.PushHistory(HistoryEntry("Delivered", now, Some(caller.id), OrElse(deliveryNotes, DeliveredNote)));
    assert doc.rec == DeliveredEdit(found.value, deliveryNotes, caller.id, now).value;
    DeliveredHistory(found.value, deliveryNotes, caller.id, now);
    var saved := store.Save(doc, now);
    hub.NotifyOwner(saved.value.userId, saved.value, "Delivered", now);
    resp := Response(200, MarkedDelivered);
  }
}
