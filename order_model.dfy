/** The order record (backend/models/orderModel.js): its schema constraints, the pre-save hook
    that appends to the status history, the duration and payment virtuals, and the collection
    the documents are saved into. */
module OrderModel {
  import opened Common

  /** The eight order states, in the schema's order. */
  const StatusValues: seq<string> :=
    ["Pending", "Accepted", "Preparing", "Ready for Pickup", "On The Way", "Delivered", "Completed", "Cancelled"]
  const PaymentStatusValues: seq<string> := ["Pending", "Paid", "Failed", "Refunded"]
  const OrderTypeValues: seq<string> := ["Delivery", "Pickup"]
  const PriorityValues: seq<string> := ["Normal", "High", "Urgent"]

  /** Milliseconds in a minute, the unit of the duration virtuals. */
  const MinuteMs: int := 1000 * 60

  datatype HistoryEntry = HistoryEntry(status: string, timestamp: int, updatedBy: Option<string>, notes: string)

  datatype OrderItem = OrderItem(food: string, quantity: int, price: real, total: real)

  datatype DeliveryDetails = DeliveryDetails(
    address: string,
    phone: string,
    estimatedTime: Option<int>,
    actualDeliveryTime: Option<int>,
    deliveryPerson: string,
    deliveryNotes: string)

  datatype PaymentDetails = PaymentDetails(
    razorpayPaymentId: Option<string>,
    razorpayOrderId: Option<string>,
    paidAt: Option<int>,
    failedAt: Option<int>,
    errorCode: Option<string>,
    errorDescription: Option<string>,
    refundId: Option<string>,
    refundedAt: Option<int>,
    refundAmount: Option<real>,
    refundReason: Option<string>,
    transactionId: Option<string>)

  /** The payment sub-document as Mongoose creates it on first assignment: every path at its null default. */
  const EmptyPaymentDetails: PaymentDetails :=
    PaymentDetails(None, None, None, None, None, None, None, None, None, None, None)

  /** An order document. `""` stands for an unset or empty string path. */
  datatype Order = Order(
    id: string,
    customerName: string,
    userId: Option<string>,
    items: seq<OrderItem>,
    totalAmount: real,
    status: string,
    statusHistory: seq<HistoryEntry>,
    deliveryDetails: Option<DeliveryDetails>,
    paymentDetails: Option<PaymentDetails>,
    specialInstructions: string,
    adminNotes: string,
    paymentStatus: string,
    paymentMethod: string,
    orderType: string,
    priority: string)

  /** The sum of the order lines' totals. */
  function ItemsTotal(items: seq<OrderItem>): real
  {
    if items == [] then 0.0 else items[0].total + ItemsTotal(items[1..])
  }

  /** What Mongoose's validators accept: required paths present, enums respected, item quantities at least 1. */
  predicate Conforms(o: Order)
  {
    o.customerName != "" &&
    o.status in StatusValues &&
    (forall k :: 0 <= k < |o.statusHistory| ==> o.statusHistory[k].status in StatusValues) &&
    (forall k :: 0 <= k < |o.items| ==> o.items[k].food != "" && o.items[k].quantity >= 1) &&
    (o.deliveryDetails.Some? ==> o.deliveryDetails.value.address != "") &&
    o.paymentStatus in PaymentStatusValues &&
    o.orderType in OrderTypeValues &&
    o.priority in PriorityValues
  }

  /** The ownership check of the order, tracking and payment endpoints: an admin may act on every order,
      anyone else only on an order whose `userId` is their own id. */
  predicate MayAccess(role: string, callerId: string, o: Order)
    ensures o.userId.None? ==> (MayAccess(role, callerId, o) <==> role == "admin")
    ensures MayAccess(role, callerId, o) && o.userId.Some? && o.userId.value != callerId ==> role == "admin"
  {
    role == "admin" || o.userId == Some(callerId)
  }

  /** The ownership check as the tracking endpoints write it, after `populate('userId')`: `order.userId`
      is then the owner's user document, and its `toString()`, here `inspect(id)`, is the printed
      document rather than the id. */
  predicate MayAccessPopulated(role: string, callerId: string, o: Order, inspect: string -> string)
  {
    role == "admin" || (o.userId.Some? && inspect(o.userId.value) == callerId)
  }

  /** A printed document starts with '{' and an id never does, so as written only admins pass. */
  lemma PopulatedCheckAdminsOnly(role: string, callerId: string, o: Order, inspect: string -> string)
    requires o.userId.Some? ==> |inspect(o.userId.value)| > 0 && inspect(o.userId.value)[0] == '{'
    requires callerId == "" || callerId[0] != '{'
    ensures MayAccessPopulated(role, callerId, o, inspect) <==> role == "admin"
  {
  }

  /** The entry the pre-save hook appends: the current status, the save time and the admin notes. */
  function HookEntry(o: Order, now: int): HistoryEntry
  {
    HistoryEntry(o.status, now, None, o.adminNotes)
  }

  /** The record after the pre-save hook ran, given whether `status` was modified since the last save. */
  function AfterHook(o: Order, statusModified: bool, now: int): (r: Order)
    ensures r.(statusHistory := o.statusHistory) == o
    ensures statusModified ==> r.statusHistory == o.statusHistory + [HookEntry(o, now)]
    ensures !statusModified ==> r == o
  {
    if statusModified then o.(statusHistory := o.statusHistory + [HookEntry(o, now)]) else o
  }

  /** The hook neither makes a conforming record invalid nor repairs an invalid one, so whether validation
      runs before or after it does not change the outcome of a save. */
  lemma ConformsAfterHook(o: Order, statusModified: bool, now: int)
    ensures Conforms(AfterHook(o, statusModified, now)) <==> Conforms(o)
  {
    var r := AfterHook(o, statusModified, now);
    if statusModified && Conforms(o) {
      forall k | 0 <= k < |r.statusHistory|
        ensures r.statusHistory[k].status in StatusValues
      {
        if k < |o.statusHistory| {
          assert r.statusHistory[k] == o.statusHistory[k];
        }
      }
    }
    if statusModified && Conforms(r) {
      forall k | 0 <= k < |o.statusHistory|
        ensures o.statusHistory[k].status in StatusValues
      {
        assert o.statusHistory[k] == r.statusHistory[k];
      }
    }
  }

  /** Whole minutes elapsed from `t` to `now` (Math.floor of a millisecond difference over 60000). */
  function MinutesSince(t: int, now: int): (m: int)
    ensures m * MinuteMs <= now - t < (m + 1) * MinuteMs
  {
    (now - t) / MinuteMs
  }

  lemma MinutesSinceMonotone(earlier: int, later: int, now: int)
    requires earlier <= later
    ensures MinutesSince(earlier, now) >= MinutesSince(later, now)
  {
  }

  /** The `statusDuration` virtual: minutes since the last history entry, 0 for an empty history. */
  function StatusDuration(o: Order, now: int): (m: int)
    ensures o.statusHistory == [] ==> m == 0
    ensures o.statusHistory != [] ==>
      var t := o.statusHistory[|o.statusHistory| - 1].timestamp;
      m * MinuteMs <= now - t < (m + 1) * MinuteMs
  {
    if |o.statusHistory| > 0 then MinutesSince(o.statusHistory[|o.statusHistory| - 1].timestamp, now) else 0
  }

  /** The `totalDuration` virtual: minutes since the first history entry, 0 for an empty history. */
  function TotalDuration(o: Order, now: int): (m: int)
    ensures o.statusHistory == [] ==> m == 0
    ensures o.statusHistory != [] ==>
      var t := o.statusHistory[0].timestamp;
      m * MinuteMs <= now - t < (m + 1) * MinuteMs
  {
    if |o.statusHistory| > 0 then MinutesSince(o.statusHistory[0].timestamp, now) else 0
  }

  predicate TimestampsOrdered(h: seq<HistoryEntry>)
  {
    forall i, j :: 0 <= i <= j < |h| ==> h[i].timestamp <= h[j].timestamp
  }

  /** With non-decreasing timestamps the whole order is at least as old as its current status. */
  lemma TotalDurationCoversStatusDuration(o: Order, now: int)
    requires TimestampsOrdered(o.statusHistory)
    ensures TotalDuration(o, now) >= StatusDuration(o, now)
  {
    var h := o.statusHistory;
    if h != [] {
      MinutesSinceMonotone(h[0].timestamp, h[|h| - 1].timestamp, now);
    }
  }

  /** The hook stamps its entry with the save time, so a history kept in time order stays in time order. */
  lemma AfterHookKeepsTimeOrder(o: Order, statusModified: bool, now: int)
    requires TimestampsOrdered(o.statusHistory)
    requires forall k :: 0 <= k < |o.statusHistory| ==> o.statusHistory[k].timestamp <= now
    ensures TimestampsOrdered(AfterHook(o, statusModified, now).statusHistory)
  {
  }

  /** The payment virtuals `isPaid`, `isPaymentPending` and `isPaymentFailed`. */
  datatype PaymentFlags = PaymentFlags(isPaid: bool, isPaymentPending: bool, isPaymentFailed: bool)

  function PaymentFlagsOf(o: Order): (f: PaymentFlags)
    ensures f.isPaid <==> o.paymentStatus == "Paid"
    ensures f.isPaymentPending <==> o.paymentStatus == "Pending"
    ensures f.isPaymentFailed <==> o.paymentStatus == "Failed"
  {
    PaymentFlags(o.paymentStatus == "Paid", o.paymentStatus == "Pending", o.paymentStatus == "Failed")
  }

  /** At most one payment flag holds, and on a conforming order none holds exactly when it was refunded. */
  lemma PaymentFlagsExclusive(o: Order)
    ensures var f := PaymentFlagsOf(o);
      !(f.isPaid && f.isPaymentPending) && !(f.isPaid && f.isPaymentFailed) && !(f.isPaymentPending && f.isPaymentFailed)
    ensures Conforms(o) ==>
      var f := PaymentFlagsOf(o);
      (!f.isPaid && !f.isPaymentPending && !f.isPaymentFailed <==> o.paymentStatus == "Refunded")
  {
  }

  const ValidationFailed: string := "Order validation failed"

  /** A loaded or newly constructed order document: the record plus Mongoose's change tracking of `status`. */
  class OrderDoc {
    var rec: Order
    var isNew: bool
    var statusModified: bool

    /** `Order.findById`: a stored document, nothing modified yet. */
    constructor Load(o: Order)
      ensures rec == o && !isNew && !statusModified
    {
      rec := o;
      isNew := false;
      statusModified := false;
    }

    /** `new Order(data)`: on a new document every path given explicitly counts as modified, defaults do not. */
    constructor Create(o: Order, statusGiven: bool)
      ensures rec == o && isNew && statusModified == statusGiven
    {
      rec := o;
      isNew := true;
      statusModified := statusGiven;
    }

    /** `doc.status = s`: marks the path modified when the value changes (always, on a new document). */
    method SetStatus(s: string)
      modifies this
      ensures rec == old(rec).(status := s) && isNew == old(isNew)
      ensures statusModified == (old(statusModified) || isNew || s != old(rec.status))
    {
      statusModified := statusModified || isNew || s != rec.status;
      rec := rec.(status := s);
    }

    method SetAdminNotes(notes: string)
      modifies this`rec
      ensures rec == old(rec).(adminNotes := notes)
    {
      rec := rec.(adminNotes := notes);
    }

    /** `doc.statusHistory.push(e)`. */
    method PushHistory(e: HistoryEntry)
      modifies this`rec
      ensures rec == old(rec).(statusHistory := old(rec.statusHistory) + [e])
    {
      rec := rec.(statusHistory := rec.statusHistory + [e]);
    }

    method SetDeliveryDetails(d: DeliveryDetails)
      modifies this`rec
      ensures rec == old(rec).(deliveryDetails := Some(d))
    {
      rec := rec.(deliveryDetails := Some(d));
    }

    method SetPaymentDetails(p: PaymentDetails)
      modifies this`rec
      ensures rec == old(rec).(paymentDetails := Some(p))
    {
      rec := rec.(paymentDetails := Some(p));
    }

    method SetPaymentStatus(s: string)
      modifies this`rec
      ensures rec == old(rec).(paymentStatus := s)
    {
      rec := rec.(paymentStatus := s);
    }

    method SetPaymentMethod(m: string)
      modifies this`rec
      ensures rec == old(rec).(paymentMethod := m)
    {
      rec := rec.(paymentMethod := m);
    }
  }

  /** The `orders` collection, keyed by document id. */
  class OrderStore {
    var orders: map<string, Order>

    ghost predicate Valid()
      reads this
    {
      forall id :: id in orders ==> orders[id].id == id && Conforms(orders[id])
    }

    constructor ()
      ensures orders == map[] && Valid()
    {
      orders := map[];
    }

    /** `doc.save()`: validation, then the pre-save hook, then the write. A record that fails validation
        is reported and neither the document nor the collection changes. */
    method Save(doc: OrderDoc, now: int) returns (r: Result<Order>)
      requires Valid()
      modifies this, doc
      ensures Valid()
      ensures !Conforms(old(doc.rec)) ==>
        r == Err(ValidationFailed) && orders == old(orders) &&
        doc.rec == old(doc.rec) && doc.statusModified == old(doc.statusModified) && doc.isNew == old(doc.isNew)
      ensures Conforms(old(doc.rec)) ==>
        var saved := AfterHook(old(doc.rec), old(doc.statusModified), now);
        r == Ok(saved) && doc.rec == saved && !doc.statusModified && !doc.isNew &&
        orders == old(orders)[saved.id := saved]
    {
      if !Conforms(doc.rec) {
        return Err(ValidationFailed);
      }
      ConformsAfterHook(doc.rec, doc.statusModified, now);
      doc.rec := AfterHook(doc.rec, doc.statusModified, now);
      doc.statusModified := false;
      doc.isNew := false;
      orders := orders[doc.rec.id := doc.rec];
      r := Ok(doc.rec);
    }

    /** `Order.findById(id)` followed by reading the record. */
    function Find(id: string): (r: Option<Order>)
      reads this
      requires Valid()
      ensures r.Some? <==> id in orders
      ensures r.Some? ==> r.value.id == id && Conforms(r.value)
    {
      if id in orders then Some(orders[id]) else None
    }
  }
}
