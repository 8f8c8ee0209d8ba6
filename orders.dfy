/** Purchase orders and the notifications their changes send: the status each
    request may set (the manager's update, the supplier's confirm, ship/deliver
    and decline, and the one-off repair of "confirmed" rows), and the inbox
    requests that mark notifications read. */
module Orders {
  import opened Results
  import opened Models

  /** The statuses the manager's form may set. */
  const ValidStatuses: set<string> := {"pending", "approved", "ordered", "delivered", "cancelled"}

  /** The statuses a supplier may report. */
  const SupplierStatuses: set<string> := {"ordered", "delivered"}

  // ---------------------------------------------------------------------------
  // Status transitions
  // ---------------------------------------------------------------------------

  /** Records a status; reaching "delivered" stamps the delivery date, any other
      status leaves the date as it was. */
  function WithStatus(o: PurchaseOrder, status: string, now: Timestamp): (r: PurchaseOrder)
    ensures r.status == status
    ensures status == "delivered" ==> r.deliveryDate == Some(now)
    ensures status != "delivered" ==> r.deliveryDate == o.deliveryDate
    ensures r.(status := o.status, deliveryDate := o.deliveryDate) == o
  {
    var o' := o.(status := status);
    if status == "delivered" then o'.(deliveryDate := Some(now)) else o'
  }

  /** update_po_status: any of the five statuses, from any status. */
  function ManagerTransition(o: PurchaseOrder, status: string, now: Timestamp): (r: Result<PurchaseOrder>)
    ensures r.Ok? <==> status in ValidStatuses
    ensures r.Err? ==> r.error == InvalidStatus
    ensures r.Ok? ==> r.value == WithStatus(o, status, now)
  {
    if status !in ValidStatuses then Err(InvalidStatus) else Ok(WithStatus(o, status, now))
  }

  /** supplier_confirm_order: accepting moves a pending order to "approved";
      any other status is refused. */
  function ConfirmTransition(o: PurchaseOrder): (r: Result<PurchaseOrder>)
    ensures r.Ok? <==> o.status == "pending"
    ensures r.Err? ==> r.error == NotPending
    ensures r.Ok? ==> r.value.status == "approved" && r.value.(status := o.status) == o
  {
    if o.status != "pending" then Err(NotPending) else Ok(o.(status := "approved"))
  }

  /** supplier_update_order_status: "ordered" or "delivered", from any status. */
  function SupplierTransition(o: PurchaseOrder, status: string, now: Timestamp): (r: Result<PurchaseOrder>)
    ensures r.Ok? <==> status in SupplierStatuses
    ensures r.Err? ==> r.error == InvalidStatus
    ensures r.Ok? ==> r.value == WithStatus(o, status, now)
  {
    if status !in SupplierStatuses then Err(InvalidStatus) else Ok(WithStatus(o, status, now))
  }

  /** supplier_decline_order: always cancels, whatever the status. */
  function DeclineTransition(o: PurchaseOrder): (r: PurchaseOrder)
    ensures r.status == "cancelled" && r.(status := o.status) == o
  {
    o.(status := "cancelled")
  }

  /** update_database_schema: a row left in the retired status "confirmed" becomes
      "approved"; every other row is left alone. */
  function MigrateTransition(o: PurchaseOrder): (r: PurchaseOrder)
    ensures r.status != "confirmed"
    ensures o.status != "confirmed" ==> r == o
    ensures o.status == "confirmed" ==> r == o.(status := "approved")
  {
    if o.status == "confirmed" then o.(status := "approved") else o
  }

  /** The repair applied to the whole table. */
  function MigrateAll(orders: map<int, PurchaseOrder>): (r: map<int, PurchaseOrder>)
    ensures r.Keys == orders.Keys
    ensures forall k :: k in r ==> r[k].status != "confirmed"
    ensures forall k :: k in orders && orders[k].status != "confirmed" ==> r[k] == orders[k]
    ensures forall k :: k in orders && orders[k].status == "confirmed" ==> r[k] == orders[k].(status := "approved")
  {
    map k | k in orders :: MigrateTransition(orders[k])
  }

  function ConfirmedOrders(orders: map<int, PurchaseOrder>): set<int> {
    set k | k in orders && orders[k].status == "confirmed"
  }

  /** The repair applied to the rows whose id is below `bound`. */
  function MigrateBelow(orders: map<int, PurchaseOrder>, bound: int): map<int, PurchaseOrder> {
    map k | k in orders :: if k < bound then MigrateTransition(orders[k]) else orders[k]
  }

  lemma MigrateBelowStep(orders: map<int, PurchaseOrder>, id: int)
    ensures var before := MigrateBelow(orders, id);
            var confirmed := id in orders && orders[id].status == "confirmed";
            (confirmed ==> id in before && before[id] == orders[id] &&
                           MigrateBelow(orders, id + 1) == before[id := before[id].(status := "approved")]) &&
            (!confirmed ==> MigrateBelow(orders, id + 1) == before)
    ensures ConfirmedBelow(orders, id + 1) ==
              if id in orders && orders[id].status == "confirmed" then ConfirmedBelow(orders, id) + {id}
              else ConfirmedBelow(orders, id)
    ensures id in orders && orders[id].status == "confirmed" ==> id !in ConfirmedBelow(orders, id)
  {
  }

  lemma MigrateBelowAll(orders: map<int, PurchaseOrder>, bound: int)
    requires forall k :: k in orders ==> k < bound
    ensures MigrateBelow(orders, bound) == MigrateAll(orders)
    ensures ConfirmedBelow(orders, bound) == ConfirmedOrders(orders)
  {
  }

  function ConfirmedBelow(orders: map<int, PurchaseOrder>, bound: int): set<int> {
    set k | k in orders && k < bound && orders[k].status == "confirmed"
  }

  /** Every request keeps a valid status valid. */
  lemma TransitionsKeepStatusValid(o: PurchaseOrder, status: string, now: Timestamp)
    requires o.status in ValidStatuses
    ensures ManagerTransition(o, status, now).Ok? ==> ManagerTransition(o, status, now).value.status in ValidStatuses
    ensures ConfirmTransition(o).Ok? ==> ConfirmTransition(o).value.status in ValidStatuses
    ensures SupplierTransition(o, status, now).Ok? ==> SupplierTransition(o, status, now).value.status in ValidStatuses
    ensures DeclineTransition(o).status in ValidStatuses
    ensures MigrateTransition(o) == o
  {
  }

  /** The repair turns every status the handlers have ever written into a
      valid one, and running it again changes nothing. */
  lemma {:induction false} MigrationRepairs(orders: map<int, PurchaseOrder>)
    requires forall k :: k in orders ==> orders[k].status in ValidStatuses + {"confirmed"}
    ensures forall k :: k in MigrateAll(orders) ==> MigrateAll(orders)[k].status in ValidStatuses
    ensures MigrateAll(MigrateAll(orders)) == MigrateAll(orders)
    ensures ConfirmedOrders(MigrateAll(orders)) == {}
  {
    var once := MigrateAll(orders);
    forall k | k in once ensures once[k].status in ValidStatuses {
      assert orders[k].status in ValidStatuses + {"confirmed"};
    }
    assert MigrateAll(once) == once by {
      forall k | k in once ensures MigrateAll(once)[k] == once[k] {
        assert once[k].status != "confirmed";
      }
    }
  }

  /** A supplier can confirm an order only once, and never after declining it. */
  lemma ConfirmIsOneShot(o: PurchaseOrder)
    ensures ConfirmTransition(o).Ok? ==> ConfirmTransition(ConfirmTransition(o).value).Err?
    ensures ConfirmTransition(DeclineTransition(o)) == Err(NotPending)
  {
  }

  /** The supplier's ship/deliver update does not look at the current status:
      even a cancelled order can be reported delivered. */
  lemma SupplierUpdateIgnoresCurrentStatus(o: PurchaseOrder, now: Timestamp)
    requires o.status == "cancelled"
    ensures SupplierTransition(o, "delivered", now) == Ok(o.(status := "delivered", deliveryDate := Some(now)))
  {
  }

  /** Moving a delivered order back keeps its delivery date. */
  lemma DeliveryDateOutlivesDelivery(o: PurchaseOrder, now: Timestamp, later: Timestamp)
    ensures var delivered := ManagerTransition(o, "delivered", now).value;
            ManagerTransition(delivered, "pending", later).value.deliveryDate == Some(now)
  {
  }

  // ---------------------------------------------------------------------------
  // Notifications
  // ---------------------------------------------------------------------------

  /** The inbox with one more, unread, notification whose id continues the
      numbering. */
  function Notified(ns: seq<Notification>, userId: int, title: string, kind: string,
                    relatedType: Option<string>, relatedId: Option<int>): (r: seq<Notification>)
    ensures |r| == |ns| + 1 && r[..|ns|] == ns
    ensures r[|ns|].id == |ns| + 1 && r[|ns|].userId == userId && !r[|ns|].isRead
    ensures r[|ns|].title == title && r[|ns|].kind == kind
    ensures r[|ns|].relatedType == relatedType && r[|ns|].relatedId == relatedId
  {
    ns + [NewNotification(|ns| + 1, userId, title, kind, relatedType, relatedId)]
  }

  /** mark_all_notifications_read: every notification of the user is read
      afterwards; nothing else about any notification changes. */
  function ReadAll(ns: seq<Notification>, userId: int): (r: seq<Notification>)
    ensures |r| == |ns|
    ensures forall i :: 0 <= i < |ns| && ns[i].userId == userId ==> r[i] == ns[i].(isRead := true)
    ensures forall i :: 0 <= i < |ns| && ns[i].userId != userId ==> r[i] == ns[i]
  {
    if ns == [] then []
    else
      var head := if ns[0].userId == userId && !ns[0].isRead then ns[0].(isRead := true) else ns[0];
      [head] + ReadAll(ns[1..], userId)
  }

  function UnreadCount(ns: seq<Notification>, userId: int): nat {
    |set i | 0 <= i < |ns| && ns[i].userId == userId && !ns[i].isRead|
  }

  /** After marking all read the user has no unread notification, and marking
      again changes nothing. */
  lemma ReadAllClearsInbox(ns: seq<Notification>, userId: int)
    ensures UnreadCount(ReadAll(ns, userId), userId) == 0
    ensures ReadAll(ReadAll(ns, userId), userId) == ReadAll(ns, userId)
  {
    var r := ReadAll(ns, userId);
    assert (set i | 0 <= i < |r| && r[i].userId == userId && !r[i].isRead) == {};
  }

  /** The status title-cased, as Python's `str.title` gives it for these two
      one-word lower-case statuses. */
  function StatusTitle(status: string): (r: string)
    requires status in SupplierStatuses
    ensures |r| == |status| && r[1..] == status[1..]
    ensures r[0] as int == status[0] as int - 32
  {
    if status == "ordered" then "Ordered" else "Delivered"
  }

  class OrderBook {
    var orders: map<int, PurchaseOrder>
    var notifications: seq<Notification>
    var nextOrderId: int

    /** Orders are keyed by their id, fresh ids lie above every id in use, and
        notification ids count up from 1. */
    ghost predicate Valid()
      reads this
    {
      && nextOrderId >= 1
      && (forall k :: k in orders ==> orders[k].id == k && 1 <= k < nextOrderId)
      && (forall i :: 0 <= i < |notifications| ==> notifications[i].id == i + 1)
    }

    constructor ()
      ensures Valid() && orders == map[] && notifications == []
    {
      orders, notifications, nextOrderId := map[], [], 1;
    }

    /** The supplier (found by id) owns the order. */
    predicate Owns(supplierId: int, orderId: int)
      reads this
    {
      orderId in orders && orders[orderId].supplierId == supplierId
    }

    /** add_purchase_order: the supplier must exist. The order starts pending; a
        supplier with a login is told about it. The order's id has not been
        assigned when the notification is built, so the notification carries no
        related id. */
    method AddOrder(supplier: Option<Supplier>, orderNumber: string, quantity: int, unitPriceCents: int,
                    expectedDelivery: Option<Timestamp>, notes: Option<string>, createdBy: int)
      returns (r: Result<int>)
      requires Valid()
      modifies this
      ensures Valid()
      ensures supplier.None? ==> r == Err(NotFound) && orders == old(orders) && notifications == old(notifications)
      ensures supplier.Some? ==>
                var id := old(nextOrderId);
                r == Ok(id) && id !in old(orders) &&
                orders == old(orders)[id := NewPurchaseOrder(id, orderNumber, supplier.value.id,
                                                             quantity * unitPriceCents, expectedDelivery,
                                                             createdBy, notes)] &&
                notifications == if supplier.value.userId.Some?
                                 then Notified(old(notifications), supplier.value.userId.value, "New Purchase Order",
                                               "info", Some("purchase_order"), None)
                                 else old(notifications)
    {
      if supplier.None? {
        return Err(NotFound);
      }
      var s := supplier.value;
      var id := nextOrderId;
      orders := orders[id := NewPurchaseOrder(id, orderNumber, s.id, quantity * unitPriceCents,
                                              expectedDelivery, createdBy, notes)];
      nextOrderId := nextOrderId + 1;
      if s.userId.Some? {
        notifications := Notified(notifications, s.userId.value, "New Purchase Order", "info",
                                  Some("purchase_order"), None);
      }
      r := Ok(id);
    }

    /** update_po_status: the manager's update; an unknown order or status
        changes nothing. */
    method UpdateStatus(orderId: int, status: string, now: Timestamp) returns (r: Result<()>)
      requires Valid()
      modifies this
      ensures Valid()
      ensures orderId !in old(orders) ==> r == Err(NotFound) && orders == old(orders)
      ensures orderId in old(orders) ==>
                var t := ManagerTransition(old(orders)[orderId], status, now);
                if t.Err? then r == Err(t.error) && orders == old(orders)
                else r.Ok? && orders == old(orders)[orderId := t.value]
      ensures notifications == old(notifications) && nextOrderId == old(nextOrderId)
    {
      if orderId !in orders {
        return Err(NotFound);
      }
      if status !in ValidStatuses {
        return Err(InvalidStatus);
      }
      var o := orders[orderId].(status := status);
      if status == "delivered" {
        o := o.(deliveryDate := Some(now));
      }
      orders := orders[orderId := o];
      r := Ok(());
    }

    /** supplier_confirm_order: the acting supplier's own pending order becomes
        "approved" and its creator is told. */
    method ConfirmOrder(supplier: Option<Supplier>, orderId: int) returns (r: Result<()>)
      requires Valid()
      modifies this
      ensures Valid()
      ensures supplier.None? ==> r == Err(NoSupplierProfile)
      ensures supplier.Some? && !old(Owns(supplier.value.id, orderId)) ==> r == Err(NotFound)
      ensures r.Err? ==> orders == old(orders) && notifications == old(notifications)
      ensures supplier.Some? && old(Owns(supplier.value.id, orderId)) ==>
                var o := old(orders)[orderId];
                var t := ConfirmTransition(o);
                if t.Err? then r == Err(t.error)
                else r.Ok? && orders == old(orders)[orderId := t.value] &&
                     notifications == Notified(old(notifications), o.createdBy, "Order Accepted by Supplier",
                                               "success", Some("purchase_order"), Some(o.id))
      ensures nextOrderId == old(nextOrderId)
    {
      if supplier.None? {
        return Err(NoSupplierProfile);
      }
      if !Owns(supplier.value.id, orderId) {
        return Err(NotFound);
      }
      var o := orders[orderId];
      if o.status != "pending" {
        return Err(NotPending);
      }
      orders := orders[orderId := o.(status := "approved")];
      notifications := Notified(notifications, o.createdBy, "Order Accepted by Supplier", "success",
                                Some("purchase_order"), Some(o.id));
      r := Ok(());
    }

    /** supplier_update_order_status: the acting supplier reports its own order
        shipped ("ordered") or delivered, and the creator is told. */
    method UpdateShipping(supplier: Option<Supplier>, orderId: int, status: string, now: Timestamp)
      returns (r: Result<()>)
      requires Valid()
      modifies this
      ensures Valid()
      ensures supplier.None? ==> r == Err(NoSupplierProfile)
      ensures supplier.Some? && !old(Owns(supplier.value.id, orderId)) ==> r == Err(NotFound)
      ensures r.Err? ==> orders == old(orders) && notifications == old(notifications)
      ensures supplier.Some? && old(Owns(supplier.value.id, orderId)) ==>
                var o := old(orders)[orderId];
                var t := SupplierTransition(o, status, now);
                if t.Err? then r == Err(t.error)
                else r.Ok? && orders == old(orders)[orderId := t.value] &&
                     notifications == Notified(old(notifications), o.createdBy,
                                               "Order " + StatusTitle(status) + " by Supplier",
                                               "info", Some("purchase_order"), Some(o.id))
      ensures nextOrderId == old(nextOrderId)
    {
      if supplier.None? {
        return Err(NoSupplierProfile);
      }
      if !Owns(supplier.value.id, orderId) {
        return Err(NotFound);
      }
      if status !in SupplierStatuses {
        return Err(InvalidStatus);
      }
      var o := orders[orderId];
      var updated := o.(status := status);
      if status == "delivered" {
        updated := updated.(deliveryDate := Some(now));
      }
      orders := orders[orderId := updated];
      notifications := Notified(notifications, o.createdBy, "Order " + StatusTitle(status) + " by Supplier",
                                "info", Some("purchase_order"), Some(o.id));
      r := Ok(());
    }

    /** supplier_decline_order: the acting supplier cancels its own order,
        whatever its status, and the creator is told. */
    method DeclineOrder(supplier: Option<Supplier>, orderId: int) returns (r: Result<()>)
      requires Valid()
      modifies this
      ensures Valid()
      ensures supplier.None? ==> r == Err(NoSupplierProfile)
      ensures supplier.Some? && !old(Owns(supplier.value.id, orderId)) ==> r == Err(NotFound)
      ensures r.Err? ==> orders == old(orders) && notifications == old(notifications)
      ensures r.Ok? <==> supplier.Some? && old(Owns(supplier.value.id, orderId))
      ensures r.Ok? ==>
                var o := old(orders)[orderId];
                orders == old(orders)[orderId := DeclineTransition(o)] &&
                notifications == Notified(old(notifications), o.createdBy, "Order Declined by Supplier",
                                          "error", Some("purchase_order"), Some(o.id))
      ensures nextOrderId == old(nextOrderId)
    {
      if supplier.None? {
        return Err(NoSupplierProfile);
      }
      if !Owns(supplier.value.id, orderId) {
        return Err(NotFound);
      }
      var o := orders[orderId];
      orders := orders[orderId := o.(status := "cancelled")];
      notifications := Notified(notifications, o.createdBy, "Order Declined by Supplier", "error",
                                Some("purchase_order"), Some(o.id));
      r := Ok(());
    }

    /** update_database_schema, the status repair: every "confirmed" order becomes
        "approved"; returns how many were repaired. */
    method MigrateConfirmed() returns (fixed: nat)
      requires Valid()
      modifies this
      ensures Valid()
      ensures orders == MigrateAll(old(orders))
      ensures fixed == |ConfirmedOrders(old(orders))|
      ensures notifications == old(notifications) && nextOrderId == old(nextOrderId)
    {
      fixed := 0;
      var id := 1;
      while id < nextOrderId
        invariant 1 <= id <= nextOrderId
        invariant notifications == old(notifications) && nextOrderId == old(nextOrderId)
        invariant orders == MigrateBelow(old(orders), id)
        invariant fixed == |ConfirmedBelow(old(orders), id)|
      {
        MigrateBelowStep(old(orders), id);
        if id in orders && orders[id].status == "confirmed" {
          orders := orders[id := orders[id].(status := "approved")];
          fixed := fixed + 1;
        }
        id := id + 1;
      }
      MigrateBelowAll(old(orders), id);
    }

    /** mark_notification_read: the user's own notification with that id is
        marked read. */
    method MarkRead(userId: int, notificationId: int) returns (r: Result<()>)
      requires Valid()
      modifies this
      ensures Valid()
      ensures r.Ok? <==> exists i :: 0 <= i < |old(notifications)| && old(notifications)[i].id == notificationId &&
                                     old(notifications)[i].userId == userId
      ensures r.Err? ==> r.error == NotFound && notifications == old(notifications)
      ensures r.Ok? ==> notifications == old(notifications)[notificationId - 1 :=
                                           old(notifications)[notificationId - 1].(isRead := true)]
      ensures orders == old(orders) && nextOrderId == old(nextOrderId)
    {
      if 1 <= notificationId <= |notifications| && notifications[notificationId - 1].userId == userId {
        var n := notifications[notificationId - 1];
        notifications := notifications[notificationId - 1 := n.(isRead := true)];
        r := Ok(());
      } else {
        r := Err(NotFound);
      }
    }

    /** mark_all_notifications_read, a single bulk update. */
    method MarkAllRead(userId: int)
      requires Valid()
      modifies this
      ensures Valid()
      ensures notifications == ReadAll(old(notifications), userId)
      ensures orders == old(orders) && nextOrderId == old(nextOrderId)
    {
      notifications := ReadAll(notifications, userId);
    }
  }
}
