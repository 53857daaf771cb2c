/** The order tracking service (backend/services/orderTrackingService.js): the admin's status update and
    delivery confirmation as the service performs them, and the tracking metrics shown to a customer.
    Errors are thrown to the caller; here they are `Err` results. */
module OrderTrackingService {
  import opened Common
  import opened OrderModel
  import opened NotificationService
  import OrderController

  const OrderNotFound: string := "Order not found"
  const AccessDenied: string := "Access denied"

  /** What `updateOrderStatus` and `markOrderDelivered` return. */
  datatype StatusUpdate = StatusUpdate(order: Order, statusChanged: bool, message: string)

  /** The record `updateOrderStatus` saves: the status is assigned and an entry pushed on every call;
      the admin notes are overwritten only by non-empty notes. */
  function ServiceStatusEdit(o: Order, newStatus: string, adminId: string, notes: string, now: int): (r: Order)
    ensures r.id == o.id && r.userId == o.userId && r.status == newStatus
    ensures r.statusHistory == o.statusHistory + [HistoryEntry(newStatus, now, Some(adminId), notes)]
    ensures r.adminNotes == if notes != "" then notes else o.adminNotes
    ensures r.(status := o.status, statusHistory := o.statusHistory, adminNotes := o.adminNotes) == o
  {
    o.(status := newStatus, statusHistory := o.statusHistory + [HistoryEntry(newStatus, now, Some(adminId), notes)],
       adminNotes := OrElse(notes, o.adminNotes))
  }

  /** The edit of a valid order is valid exactly when the new status is one of the eight. */
  lemma ServiceStatusEditConforms(o: Order, newStatus: string, adminId: string, notes: string, now: int)
    requires Conforms(o)
    ensures Conforms(ServiceStatusEdit(o, newStatus, adminId, notes, now)) <==> newStatus in StatusValues
  {
    var r := ServiceStatusEdit(o, newStatus, adminId, notes, now);
    if newStatus in StatusValues {
      forall k | 0 <= k < |r.statusHistory|
        ensures r.statusHistory[k].status in StatusValues
      {
        if k < |o.statusHistory| {
          assert r.statusHistory[k] == o.statusHistory[k];
        }
      }
    } else {
      assert r.statusHistory[|r.statusHistory| - 1].status == newStatus;
    }
  }

  /** The service and the controller disagree on a repeated status: the service still records an entry,
      the controller records none, and for a real change the service writes one entry and the hook a
      second, as the controller path does. */
  lemma ServiceAlwaysAppends(o: Order, newStatus: string, adminId: string, notes: string, now: int)
    ensures var saved := AfterHook(ServiceStatusEdit(o, newStatus, adminId, notes, now), newStatus != o.status, now);
      |saved.statusHistory| == |o.statusHistory| + (if newStatus != o.status then 2 else 1)
    ensures newStatus == o.status ==>
      var req := OrderController.StatusRequest(newStatus, notes, None, "", "");
      OrderController.StatusEdit(o, req, adminId, now).Some? &&
      OrderController.StatusEdit(o, req, adminId, now).value.statusHistory == o.statusHistory
  {
  }

  /** `updateOrderStatus`. */
  method UpdateOrderStatus(store: OrderStore, hub: Hub, orderId: string, newStatus: string, adminId: string,
                           notes: string, now: int) returns (r: Result<StatusUpdate>)
    requires store.Valid()
    modifies store, hub`sent
    ensures store.Valid()
    ensures orderId !in old(store.orders) ==>
      r == Err(OrderNotFound) && store.orders == old(store.orders) && hub.sent == old(hub.sent)
    ensures orderId in old(store.orders) ==>
      var o := old(store.orders)[orderId];
      var edit := ServiceStatusEdit(o, newStatus, adminId, notes, now);
      (!Conforms(edit) ==> r == Err(ValidationFailed) && store.orders == old(store.orders) && hub.sent == old(hub.sent)) &&
      (Conforms(edit) ==>
        var saved := AfterHook(edit, newStatus != o.status, now);
        r == Ok(StatusUpdate(saved, newStatus != o.status, "Order status updated to " + newStatus)) &&
        store.orders == old(store.orders)[orderId := saved] &&
        hub.sent == old(hub.sent) + (if newStatus != o.status then hub.StatusEmissions(saved.userId, saved, newStatus, now) else []))
  {
    var found := store.Find(orderId);
    if found.None? {
      return Err(OrderNotFound);
    }
    var doc := new OrderDoc.Load(found.value);
    var oldStatus := doc.rec.status;
    doc.SetStatus(newStatus);
    doc.PushHistory(HistoryEntry(newStatus, now, Some(adminId), notes));
    if notes != "" {
      doc.SetAdminNotes(notes);
    }
    var saved := store.Save(doc, now);
    if saved.Err? {
      return Err(saved.message);
    }
    if newStatus != oldStatus {
      hub.NotifyOwner(saved.value.userId, saved.value, newStatus, now);
    }
    r := Ok(StatusUpdate(saved.value, newStatus != oldStatus, "Order status updated to " + newStatus));
  }

  /** `markOrderDelivered`: the same edit as the controller's; an order without delivery details throws
      on the assignment before anything is saved, and the owner is notified even when the order was
      already delivered. */
  method MarkOrderDelivered(store: OrderStore, hub: Hub, orderId: string, adminId: string, deliveryNotes: string, now: int)
    returns (r: Result<StatusUpdate>)
    requires store.Valid()
    modifies store, hub`sent
    ensures store.Valid()
    ensures orderId !in old(store.orders) ==>
      r == Err(OrderNotFound) && store.orders == old(store.orders) && hub.sent == old(hub.sent)
    ensures orderId in old(store.orders) && old(store.orders)[orderId].deliveryDetails.None? ==>
      r == Err(OrderController.NoDeliveryDetails) && store.orders == old(store.orders) && hub.sent == old(hub.sent)
    ensures orderId in old(store.orders) && old(store.orders)[orderId].deliveryDetails.Some? ==>
      var o := old(store.orders)[orderId];
      var saved := AfterHook(OrderController.DeliveredEdit(o, deliveryNotes, adminId, now).value, o.status != "Delivered", now);
      r == Ok(StatusUpdate(saved, o.status != "Delivered", "Order marked as delivered")) &&
      store.orders == old(store.orders)[orderId := saved] &&
      hub.sent == old(hub.sent) + hub.StatusEmissions(saved.userId, saved, "Delivered", now)
  {
    var found := store.Find(orderId);
    if found.None? {
      return Err(OrderNotFound);
    }
    var doc := new OrderDoc.Load(found.value);
    doc.SetStatus("Delivered");
    if doc.rec.deliveryDetails.None? {
      return Err(OrderController.NoDeliveryDetails);
    }
    var d := doc.rec.deliveryDetails.value;
    doc.SetDeliveryDetails(d.(actualDeliveryTime := Some(now), deliveryNotes := OrElse(deliveryNotes, d.deliveryNotes)));
    doc.PushHistory(HistoryEntry("Delivered", now, Some(adminId), OrElse(deliveryNotes, OrderController.DeliveredNote)));
    assert doc.rec == OrderController.DeliveredEdit(found.value, deliveryNotes, adminId, now).value;
    OrderController.DeliveredHistory(found.value, deliveryNotes, adminId, now);
    var saved := store.Save(doc, now);
    hub.NotifyOwner(saved.value.userId, saved.value, "Delivered", now);
    r := Ok(StatusUpdate(saved.value, found.value.status != "Delivered", "Order marked as delivered"));
  }

  /** The progress scale: the seven statuses of a successful order, in order. */
  const ProgressOrder: seq<string> :=
    ["Pending", "Accepted", "Preparing", "Ready for Pickup", "On The Way", "Delivered", "Completed"]

  /** `Array.prototype.indexOf`: the first position of `x`, -1 when absent. */
  function IndexOf(s: seq<string>, x: string): (i: int)
    ensures -1 <= i < |s|
    ensures i >= 0 ==> s[i] == x && forall k :: 0 <= k < i ==> s[k] != x
    ensures i == -1 <==> x !in s
  {
    if s == [] then -1
    else if s[0] == x then 0
    else var j := IndexOf(s[1..], x); if j == -1 then -1 else j + 1
  }

  /** The scale lists each status once, so a status's position on it is where `indexOf` finds it. */
  lemma IndexOnScale(k: int)
    requires 0 <= k < |ProgressOrder|
    ensures IndexOf(ProgressOrder, ProgressOrder[k]) == k
  {
    assert forall i, j :: 0 <= i < j < |ProgressOrder| ==> ProgressOrder[i] != ProgressOrder[j];
  }

  /** The rounded percentage of position `i` on the scale. */
  function Progress(i: int): (p: int)
    requires 0 <= i < |ProgressOrder|
    ensures i as real * 100.0 / 6.0 - 1.0 / 2.0 < p as real <= i as real * 100.0 / 6.0 + 1.0 / 2.0
  {
    Round(i as real / (|ProgressOrder| - 1) as real * 100.0)
  }

  /** `progressPercentage`: the position on the scale as a rounded percentage, 0 off the scale. */
  function ProgressPercentage(status: string): (p: int)
    ensures 0 <= p <= 100
    ensures status !in ProgressOrder ==> p == 0
  {
    var i := IndexOf(ProgressOrder, status);
    if i >= 0 then Progress(i) else 0
  }

  /** On the scale, the percentage is that of the status's own position. */
  lemma ProgressOnScale(k: int)
    requires 0 <= k < |ProgressOrder|
    ensures ProgressPercentage(ProgressOrder[k]) == Progress(k)
  {
    IndexOnScale(k);
  }

  /** The rounded percentages of the seven positions. */
  lemma ProgressValues(k: int)
    requires 0 <= k < |ProgressOrder|
    ensures Progress(k) == [0, 17, 33, 50, 67, 83, 100][k]
  {
    if k == 0 { assert Progress(0) == 0; }
    else if k == 1 { assert Progress(1) == 17; }
    else if k == 2 { assert Progress(2) == 33; }
    else if k == 3 { assert Progress(3) == 50; }
    else if k == 4 { assert Progress(4) == 67; }
    else if k == 5 { assert Progress(5) == 83; }
    else { assert Progress(6) == 100; }
  }

  /** The percentages along the scale are 0, 17, 33, 50, 67, 83 and 100; a status off the scale, such
      as Cancelled, is 0. */
  lemma ProgressTable(k: int)
    requires 0 <= k < |ProgressOrder|
    ensures ProgressPercentage(ProgressOrder[k]) == [0, 17, 33, 50, 67, 83, 100][k]
  {
    ProgressOnScale(k);
    ProgressValues(k);
  }

  lemma OffScaleProgress(status: string)
    requires status !in ProgressOrder
    ensures ProgressPercentage(status) == 0
  {
  }

  /** The percentage is between 0 and 100 and never goes down along the scale. */
  lemma ProgressBoundedMonotone(i: int, j: int)
    requires 0 <= i <= j < |ProgressOrder|
    ensures 0 <= ProgressPercentage(ProgressOrder[i]) <= ProgressPercentage(ProgressOrder[j]) <= 100
  {
    ProgressOnScale(i);
    ProgressOnScale(j);
    ProgressValues(i);
    ProgressValues(j);
  }

  /** Thirty minutes, the default delivery estimate for an accepted order. */
  const DefaultEstimateMs: int := 30 * 60 * 1000

  /** The object `calculateTrackingMetrics` returns. */
  datatype TrackingMetrics = TrackingMetrics(
    currentStatus: string,
    statusHistory: seq<HistoryEntry>,
    estimatedDelivery: Option<int>,
    totalDuration: int,
    statusDuration: int,
    progressPercentage: int,
    isDelivered: bool,
    isCancelled: bool)

  /** `calculateTrackingMetrics` at time `now`. */
  function CalculateTrackingMetrics(o: Order, now: int): (m: TrackingMetrics)
    ensures m.currentStatus == o.status && m.statusHistory == o.statusHistory
    ensures m.totalDuration == TotalDuration(o, now) && m.statusDuration == StatusDuration(o, now)
    ensures m.progressPercentage == ProgressPercentage(o.status)
    ensures m.estimatedDelivery ==
      if OrderController.EstimatedTime(o).Some? then OrderController.EstimatedTime(o)
      else if o.status == "Accepted" then Some(now + DefaultEstimateMs)
      else None
    ensures m.isDelivered <==> o.status == "Delivered" || o.status == "Completed"
    ensures m.isCancelled <==> o.status == "Cancelled"
  {
    var estimate := if OrderController.EstimatedTime(o).Some? then OrderController.EstimatedTime(o)
                    else if o.status == "Accepted" then Some(now + DefaultEstimateMs) else None;
    TrackingMetrics(o.status, o.statusHistory, estimate, TotalDuration(o, now), StatusDuration(o, now),
                    ProgressPercentage(o.status), o.status in ["Delivered", "Completed"], o.status == "Cancelled")
  }

  /** The metrics are consistent: an order is never both delivered and cancelled, a cancelled order shows
      0% progress, a delivered one at least 83%, and with timestamps in order the whole order is at least
      as old as its current status. */
  lemma MetricsConsistent(o: Order, now: int)
    ensures var m := CalculateTrackingMetrics(o, now);
      !(m.isDelivered && m.isCancelled) && (m.isCancelled ==> m.progressPercentage == 0) &&
      (m.isDelivered ==> m.progressPercentage >= 83) && 0 <= m.progressPercentage <= 100
    ensures TimestampsOrdered(o.statusHistory) ==>
      CalculateTrackingMetrics(o, now).totalDuration >= CalculateTrackingMetrics(o, now).statusDuration
  {
    StatusProgress(o.status);
    if TimestampsOrdered(o.statusHistory) {
      TotalDurationCoversStatusDuration(o, now);
    }
  }

  /** The progress a status shows: within 0..100, 0 when cancelled, at least 83 when delivered. */
  lemma StatusProgress(status: string)
    ensures 0 <= ProgressPercentage(status) <= 100
    ensures status == "Cancelled" ==> ProgressPercentage(status) == 0
    ensures status == "Delivered" || status == "Completed" ==> ProgressPercentage(status) >= 83
  {
    if status == "Delivered" {
      assert ProgressOrder[5] == status;
      ProgressTable(5);
    } else if status == "Completed" {
      assert ProgressOrder[6] == status;
      ProgressTable(6);
    } else if status == "Cancelled" {
      assert status !in ProgressOrder by {
        assert status[1] == 'a';
        assert forall k | 0 <= k < |ProgressOrder| :: ProgressOrder[k][1] != 'a';
      }
    } else {
      var i := IndexOf(ProgressOrder, status);
      if i >= 0 {
        ProgressBoundedMonotone(i, i);
      }
    }
  }

  /** `getOrderTracking`: 'Order not found', then 'Access denied' unless admin or owner, then the order
      with its metrics. */
  function GetOrderTracking(orders: map<string, Order>, orderId: string, userId: string, userRole: string, now: int)
    : (r: Result<(Order, TrackingMetrics)>)
    ensures orderId !in orders ==> r == Err(OrderNotFound)
    ensures orderId in orders && !MayAccess(userRole, userId, orders[orderId]) ==> r == Err(AccessDenied)
    ensures r.Ok? <==> orderId in orders && MayAccess(userRole, userId, orders[orderId])
    ensures r.Ok? ==> r.value == (orders[orderId], CalculateTrackingMetrics(orders[orderId], now))
  {
    if orderId !in orders then Err(OrderNotFound)
    else if !MayAccess(userRole, userId, orders[orderId]) then Err(AccessDenied)
    else Ok((orders[orderId], CalculateTrackingMetrics(orders[orderId], now)))
  }

  /** `getOrderTracking` as written: the owner test compares the printed populated user, `inspect` of
      the owner id, with the caller's id. */
  function GetOrderTrackingAsWritten(orders: map<string, Order>, orderId: string, userId: string, userRole: string,
                                     now: int, inspect: string -> string): (r: Result<(Order, TrackingMetrics)>)
    ensures orderId !in orders ==> r == Err(OrderNotFound)
    ensures r.Ok? <==> orderId in orders && MayAccessPopulated(userRole, userId, orders[orderId], inspect)
  {
    if orderId !in orders then Err(OrderNotFound)
    else if !MayAccessPopulated(userRole, userId, orders[orderId], inspect) then Err(AccessDenied)
    else Ok((orders[orderId], CalculateTrackingMetrics(orders[orderId], now)))
  }

  /** As written, the owner of an order who is not an admin gets 'Access denied', where the corrected
      check returns the order. */
  lemma AsWrittenTrackingDeniesOwner(orders: map<string, Order>, orderId: string, userId: string, userRole: string,
                                     now: int, inspect: string -> string)
    requires orderId in orders && userRole != "admin" && orders[orderId].userId == Some(userId)
    requires |inspect(userId)| > 0 && inspect(userId)[0] == '{'
    requires userId == "" || userId[0] != '{'
    ensures GetOrderTrackingAsWritten(orders, orderId, userId, userRole, now, inspect) == Err(AccessDenied)
    ensures GetOrderTracking(orders, orderId, userId, userRole, now).Ok?
  {
    PopulatedCheckAdminsOnly(userRole, userId, orders[orderId], inspect);
  }
}
