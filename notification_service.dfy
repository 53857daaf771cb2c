/** Real-time notifications (backend/services/notificationService.js): the Socket.IO server held in a
    module variable, the rooms sockets join, the status-message table, and the two notifiers that
    emit to a room and swallow every error. Sockets are identified by their ids; an emission records
    the sockets that were in the room when it was sent. */
module NotificationService {
  import opened Common
  import opened OrderModel

  const AdminRoom: string := "admin-room"
  const UserRoomPrefix: string := "user-"
  const NotInitialized: string := "Socket.IO not initialized. Call initializeSocket first."

  /** The room a user's sockets join, and the room their status updates go to. */
  function UserRoom(userId: string): (room: string)
    ensures |room| == |UserRoomPrefix| + |userId| && room[|UserRoomPrefix|..] == userId
  {
    UserRoomPrefix + userId
  }

  /** Distinct users have distinct rooms, and no user room is the admin room. */
  lemma UserRoomsSeparate(a: string, b: string)
    ensures UserRoom(a) == UserRoom(b) <==> a == b
    ensures UserRoom(a) != AdminRoom
  {
    if UserRoom(a) == UserRoom(b) {
      assert a == UserRoom(a)[|UserRoomPrefix|..];
      assert b == UserRoom(b)[|UserRoomPrefix|..];
    }
    assert UserRoom(a)[0] == 'u' && AdminRoom[0] == 'a';
  }

  const YourOrder: string := "Your order "
  const GenericPrefix: string := "Order status updated to "

  /** The statuses with a message of their own. */
  predicate HasOwnMessage(status: string)
  {
    status == "Accepted" || status == "Preparing" || status == "On The Way" || status == "Delivered" ||
    status == "Cancelled"
  }

  /** The message a user sees for a new status: the table's entry, or the generic text naming the status. */
  function StatusMessage(status: string): (m: string)
    ensures HasOwnMessage(status) ==> |m| > |YourOrder| && m[..|YourOrder|] == YourOrder
    ensures !HasOwnMessage(status) ==> m == GenericPrefix + status
  {
    if status == "Accepted" then YourOrder + "has been accepted and is being prepared!"
    else if status == "Preparing" then YourOrder + "is being prepared in the kitchen!"
    else if status == "On The Way" then YourOrder + "is on the way!"
    else if status == "Delivered" then YourOrder + "has been delivered. Enjoy your meal!"
    else if status == "Cancelled" then YourOrder + "has been cancelled."
    else GenericPrefix + status
  }

  /** Own messages begin "Your order", generic ones "Order status". */
  lemma MessageFirstChar(status: string)
    ensures |StatusMessage(status)| > 0
    ensures StatusMessage(status)[0] == if HasOwnMessage(status) then 'Y' else 'O'
  {
    var m := StatusMessage(status);
    if HasOwnMessage(status) {
      assert m[0] == m[..|YourOrder|][0] == YourOrder[0];
    } else {
      assert m[0] == GenericPrefix[0];
    }
  }

  /** The message tells the user which status the order reached: different statuses never share one. */
  lemma StatusMessageDeterminesStatus(s: string, t: string)
    requires StatusMessage(s) == StatusMessage(t)
    ensures s == t
  {
    var m := StatusMessage(s);
    MessageFirstChar(s);
    MessageFirstChar(t);
    if !HasOwnMessage(s) && !HasOwnMessage(t) {
      assert s == m[|GenericPrefix|..];
      assert t == m[|GenericPrefix|..];
    }
  }

  /** Every status of the order schema that is not in the table gets the generic text. */
  lemma GenericStatuses()
    ensures StatusMessage("Pending") == GenericPrefix + "Pending"
    ensures StatusMessage("Ready for Pickup") == GenericPrefix + "Ready for Pickup"
    ensures StatusMessage("Completed") == GenericPrefix + "Completed"
  {
    assert !HasOwnMessage("Pending") && !HasOwnMessage("Ready for Pickup") by {
      assert |"Pending"| == 7 && |"Ready for Pickup"| == 16;
    }
    assert !HasOwnMessage("Completed") by {
      assert "Completed"[1] == 'o';
    }
  }

  datatype Payload =
    | OrderStatusUpdate(orderId: string, status: string, message: string, timestamp: int)
    | NewOrder(orderId: string, customerName: string, totalAmount: real, status: string,
               items: seq<OrderItem>, message: string, timestamp: int)

  /** One `io.to(room).emit(event, payload)`, with the sockets that were in the room. */
  datatype Emission = Emission(room: string, event: string, payload: Payload, recipients: set<string>)

  function NewOrderMessage(o: Order): string
  {
    "New order placed by " + o.customerName + " for \U{20B9}" + AmountText(o.totalAmount)
  }

  function NewOrderPayload(o: Order, now: int): (p: Payload)
    ensures p.NewOrder? && p.orderId == o.id && p.customerName == o.customerName
    ensures p.totalAmount == o.totalAmount && p.status == o.status && p.items == o.items
  {
    NewOrder(o.id, o.customerName, o.totalAmount, o.status, o.items, NewOrderMessage(o), now)
  }

  function StatusUpdatePayload(o: Order, newStatus: string, now: int): (p: Payload)
    ensures p.OrderStatusUpdate? && p.orderId == o.id && p.status == newStatus
  {
    OrderStatusUpdate(o.id, newStatus, StatusMessage(newStatus), now)
  }

  /** The Socket.IO server and its rooms. */
  class Hub {
    var initialized: bool
    var rooms: map<string, set<string>>
    var sent: seq<Emission>

    constructor ()
      ensures !initialized && rooms == map[] && sent == []
    {
      initialized, rooms, sent := false, map[], [];
    }

    function Members(room: string): set<string>
      reads this`rooms
    {
      if room in rooms then rooms[room] else {}
    }

    /** `initializeSocket`: from now on sockets can connect and emissions are delivered. */
    method InitializeSocket()
      modifies this`initialized
      ensures initialized
    {
      initialized := true;
    }

    /** `getIO`: the server, or the error thrown before initialisation. */
    function GetIO(): (r: Result<Hub>)
      reads this
      ensures r.Ok? <==> initialized
      ensures r.Ok? ==> r.value == this
      ensures r.Err? ==> r.message == NotInitialized
    {
      if initialized then Ok(this) else Err(NotInitialized)
    }

    /** 'join-admin': any connected socket may join the admin room; nothing is checked. */
    method JoinAdmin(socket: string)
      requires initialized
      modifies this`rooms
      ensures rooms == old(rooms)[AdminRoom := old(Members(AdminRoom)) + {socket}]
    {
      rooms := rooms[AdminRoom := Members(AdminRoom) + {socket}];
    }

    /** 'join-user': the socket joins the room of whatever user id it sends. */
    method JoinUser(socket: string, userId: string)
      requires initialized
      modifies this`rooms
      ensures rooms == old(rooms)[UserRoom(userId) := old(Members(UserRoom(userId))) + {socket}]
    {
      var room := UserRoom(userId);
      rooms := rooms[room := Members(room) + {socket}];
    }

    /** The emission announcing a new order now: one to the admin room when the server is up. */
    function AdminEmissions(o: Order, now: int): (e: seq<Emission>)
      reads this`initialized, this`rooms
      ensures |e| == if initialized then 1 else 0
      ensures initialized ==> e[0].room == AdminRoom && e[0].payload == NewOrderPayload(o, now)
    {
      if initialized then [Emission(AdminRoom, "new-order", NewOrderPayload(o, now), Members(AdminRoom))] else []
    }

    /** `notifyAdminNewOrder`: a 'new-order' emission to the admin room; before initialisation the
        error is swallowed and nothing is sent. */
    method NotifyAdminNewOrder(o: Order, now: int)
      modifies this`sent
      ensures !initialized ==> sent == old(sent)
      ensures initialized ==> sent == old(sent) + [Emission(AdminRoom, "new-order", NewOrderPayload(o, now), Members(AdminRoom))]
      ensures sent == old(sent) + AdminEmissions(o, now)
    {
      var io := GetIO();
      if io.Err? {
        return;
      }
      sent := sent + [Emission(AdminRoom, "new-order", NewOrderPayload(o, now), Members(AdminRoom))];
    }

    /** `notifyUserOrderStatusChange`: an 'order-status-update' emission to the user's room; before
        initialisation the error is swallowed and nothing is sent. */
    method NotifyUserOrderStatusChange(userId: string, o: Order, newStatus: string, now: int)
      modifies this`sent
      ensures !initialized ==> sent == old(sent)
      ensures initialized ==>
        sent == old(sent) + [Emission(UserRoom(userId), "order-status-update", StatusUpdatePayload(o, newStatus, now), Members(UserRoom(userId)))]
    {
      var io := GetIO();
      if io.Err? {
        return;
      }
      var room := UserRoom(userId);
      sent := sent + [Emission(room, "order-status-update", StatusUpdatePayload(o, newStatus, now), Members(room))];
    }

    /** The emission a status notification for an order with owner `userId` produces now: one to the
        owner's room when the order has an owner and the server is up, none otherwise. */
    function StatusEmissions(userId: Option<string>, o: Order, newStatus: string, now: int): (e: seq<Emission>)
      reads this`initialized, this`rooms
      ensures |e| <= 1
      ensures |e| == 1 <==> initialized && userId.Some?
      ensures |e| == 1 ==> e[0].room == UserRoom(userId.value) && e[0].payload == StatusUpdatePayload(o, newStatus, now)
    {
      if initialized && userId.Some? then
        [Emission(UserRoom(userId.value), "order-status-update", StatusUpdatePayload(o, newStatus, now), Members(UserRoom(userId.value)))]
      else []
    }

    /** `if (order.userId) await notifyUserOrderStatusChange(order.userId.toString(), order, status)`. */
    method NotifyOwner(userId: Option<string>, o: Order, newStatus: string, now: int)
      modifies this`sent
      ensures sent == old(sent) + StatusEmissions(userId, o, newStatus, now)
    {
      if userId.Some? {
        NotifyUserOrderStatusChange(userId.value, o, newStatus, now);
      }
    }

    method NotifyUserOrderAccepted(userId: string, o: Order, now: int)
      modifies this`sent
      ensures !initialized ==> sent == old(sent)
      ensures initialized ==>
        sent == old(sent) + [Emission(UserRoom(userId), "order-status-update", StatusUpdatePayload(o, "Accepted", now), Members(UserRoom(userId)))]
    {
      NotifyUserOrderStatusChange(userId, o, "Accepted", now);
    }

    method NotifyUserOrderCompleted(userId: string, o: Order, now: int)
      modifies this`sent
      ensures !initialized ==> sent == old(sent)
      ensures initialized ==>
        sent == old(sent) + [Emission(UserRoom(userId), "order-status-update", StatusUpdatePayload(o, "Completed", now), Members(UserRoom(userId)))]
    {
      NotifyUserOrderStatusChange(userId, o, "Completed", now);
    }

    method NotifyUserOrderOnTheWay(userId: string, o: Order, now: int)
      modifies this`sent
      ensures !initialized ==> sent == old(sent)
      ensures initialized ==>
        sent == old(sent) + [Emission(UserRoom(userId), "order-status-update", StatusUpdatePayload(o, "On The Way", now), Members(UserRoom(userId)))]
    {
      NotifyUserOrderStatusChange(userId, o, "On The Way", now);
    }
  }
}
