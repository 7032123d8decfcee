/** The administrator's order list of src/pages/Admin/OrderManagement.tsx:
    the unread count, the status update that also marks an order read, the
    status options and the markers of unread orders. Backend replies are
    parameters. */
module AdminOrders {
  import opened Common
  import opened Records

  function IsUnread(): Order -> bool {
    (o: Order) => !o.isRead
  }

  function IsRead(): Order -> bool {
    (o: Order) => o.isRead
  }

  /** `data?.filter(o => !o.is_read).length || 0`. */
  function UnreadCount(data: Option<seq<Order>>): (n: nat)
    ensures data.None? ==> n == 0
    ensures data.Some? ==> n <= |data.value|
  {
    if data.None? then 0 else Count(data.value, IsUnread())
  }

  /** Every fetched order is either unread or read: the unread count is
      what the read orders leave, it is zero exactly when every order is
      read and it is the whole list exactly when none is. */
  lemma {:induction false} UnreadCountSpec(orders: seq<Order>)
    ensures UnreadCount(Some(orders)) + Count(orders, IsRead()) == |orders|
    ensures UnreadCount(Some(orders)) == 0 <==> forall i :: 0 <= i < |orders| ==> orders[i].isRead
    ensures UnreadCount(Some(orders)) == |orders| <==> forall i :: 0 <= i < |orders| ==> !orders[i].isRead
  {
    if orders != [] {
      UnreadCountSpec(orders[1..]);
      assert forall i :: 1 <= i < |orders| ==> orders[i] == orders[1..][i - 1];
    }
  }

  /** The order row a status update targets and the fields it writes. */
  datatype StatusWrite = StatusWrite(orderId: string, status: string, isRead: bool)

  /** The six status buttons. */
  const StatusOptions: seq<string> := ["pending", "confirmed", "preparing", "ready", "delivered", "cancelled"]

  /** The buttons offer exactly the statuses of an order row, 'ready' among them. */
  lemma StatusOptionsMatchOrders()
    ensures StatusOptions == OrderStatuses
    ensures "ready" in StatusOptions
  {
  }

  /** The 'NEW' badge of an order card. */
  predicate ShowsNewBadge(o: Order) {
    !o.isRead
  }

  /** The border of an order card. */
  function BorderClass(o: Order): string {
    if !o.isRead then "border-red-300" else "border-gray-200"
  }

  /** The badge and the red border go together, on unread orders only; the
      banner at the top shows exactly when some fetched order is unread. */
  lemma UnreadMarkers(o: Order, orders: seq<Order>)
    ensures ShowsNewBadge(o) <==> BorderClass(o) == "border-red-300"
    ensures ShowsNewBadge(o) <==> !o.isRead
    ensures UnreadCount(Some(orders)) > 0 <==> exists i :: 0 <= i < |orders| && ShowsNewBadge(orders[i])
  {
    UnreadCountSpec(orders);
  }

  datatype OrdersReply = OrdersFailed | OrdersLoaded(data: Option<seq<Order>>)

  class AdminOrderQueue {
    var orders: seq<Order>
    var loading: bool
    var unreadCount: nat
    /** How many re-fetches of the list have been started. */
    var refetches: nat

    constructor ()
      ensures orders == [] && loading && unreadCount == 0 && refetches == 0
    {
      orders := [];
      loading := true;
      unreadCount := 0;
      refetches := 0;
    }

    /** `fetchOrders`: a failed query keeps the list and the count. */
    method FetchOrders(reply: OrdersReply)
      modifies this
      ensures !loading && refetches == old(refetches)
      ensures reply.OrdersFailed? ==> orders == old(orders) && unreadCount == old(unreadCount)
      ensures reply.OrdersLoaded? ==>
                orders == (if reply.data.Some? then reply.data.value else [])
                && unreadCount == UnreadCount(reply.data)
      ensures reply.OrdersLoaded? ==> unreadCount <= |orders|
    {
      if reply.OrdersLoaded? {
        orders := if reply.data.Some? then reply.data.value else [];
        unreadCount := UnreadCount(reply.data);
      }
      loading := false;
    }

    /** `updateOrderStatus`: the write always marks the order read; only a
        successful one re-fetches. */
    method UpdateOrderStatus(id: string, status: string, writeError: Option<Option<string>>) returns (write: StatusWrite, notice: string)
      modifies this
      ensures write == StatusWrite(id, status, true)
      ensures orders == old(orders) && loading == old(loading) && unreadCount == old(unreadCount)
      ensures refetches == old(refetches) + (if writeError.None? then 1 else 0)
      ensures writeError.None? ==> notice == "Order status updated"
      ensures writeError.Some? ==> notice == OrElse(writeError.value, "Failed to update")
    {
      write := StatusWrite(id, status, true);
      if writeError.Some? {
        notice := OrElse(writeError.value, "Failed to update");
        return;
      }
      notice := "Order status updated";
      refetches := refetches + 1;
    }
  }
}
