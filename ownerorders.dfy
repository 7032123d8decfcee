/** The owner's order queue of src/pages/OrderManagement.tsx: loading the
    orders of the owner's restaurants with each restaurant's name, replacing
    one order's status after a successful update, the status filter and the
    status buttons. Backend replies are parameters. */
module OwnerOrders {
  import opened Common
  import opened Records

  /** The `id, name` pairs of the owner's restaurants. */
  datatype RestaurantRef = RestaurantRef(id: string, name: string)

  /** An order with the name of its restaurant, if found. */
  datatype DetailedOrder = DetailedOrder(order: Order, restaurantName: Option<string>)

  /** The name of the first restaurant with the given id, if any. */
  function RestaurantName(restaurants: seq<RestaurantRef>, restaurantId: string): (name: Option<string>)
    ensures name.None? <==> forall i :: 0 <= i < |restaurants| ==> restaurants[i].id != restaurantId
    ensures name.Some? ==>
              exists i :: 0 <= i < |restaurants| && restaurants[i].id == restaurantId
                          && restaurants[i].name == name.value
                          && forall j :: 0 <= j < i ==> restaurants[j].id != restaurantId
  {
    if restaurants == [] then None
    else if restaurants[0].id == restaurantId then Some(restaurants[0].name)
    else
      var rest := RestaurantName(restaurants[1..], restaurantId);
      assert rest.Some? ==> exists i :: 1 <= i < |restaurants| && restaurants[i].id == restaurantId
                                        && restaurants[i].name == rest.value
                                        && forall j :: 0 <= j < i ==> restaurants[j].id != restaurantId by {
        if rest.Some? {
          var i :| 0 <= i < |restaurants[1..]| && restaurants[1..][i].id == restaurantId
                   && restaurants[1..][i].name == rest.value
                   && forall j :: 0 <= j < i ==> restaurants[1..][j].id != restaurantId;
          assert restaurants[i + 1] == restaurants[1..][i];
          forall j | 0 <= j < i + 1
            ensures restaurants[j].id != restaurantId
          {
            if j > 0 {
              assert restaurants[j] == restaurants[1..][j - 1];
            }
          }
        }
      }
      rest
  }

  /** The detailed list: each fetched order, in order, with its restaurant's name. */
  function Detailed(orders: seq<Order>, restaurants: seq<RestaurantRef>): (r: seq<DetailedOrder>)
    ensures |r| == |orders|
    ensures forall i :: 0 <= i < |orders| ==>
              r[i].order == orders[i] && r[i].restaurantName == RestaurantName(restaurants, orders[i].restaurantId)
  {
    if orders == [] then []
    else [DetailedOrder(orders[0], RestaurantName(restaurants, orders[0].restaurantId))]
         + Detailed(orders[1..], restaurants)
  }

  /** `restaurantsData?.map(r => r.id) || []`. */
  function RestaurantIds(data: Option<seq<RestaurantRef>>): (ids: seq<string>)
    ensures data.None? ==> ids == []
    ensures data.Some? ==> |ids| == |data.value| && forall i :: 0 <= i < |ids| ==> ids[i] == data.value[i].id
  {
    if data.None? then [] else IdsOf(data.value)
  }

  function IdsOf(rs: seq<RestaurantRef>): (ids: seq<string>)
    ensures |ids| == |rs| && forall i :: 0 <= i < |ids| ==> ids[i] == rs[i].id
  {
    if rs == [] then [] else [rs[0].id] + IdsOf(rs[1..])
  }

  /** The local update after a successful status change. */
  function ReplaceStatus(orders: seq<DetailedOrder>, orderId: string, newStatus: string): (r: seq<DetailedOrder>)
    ensures |r| == |orders|
  {
    if orders == [] then []
    else [if orders[0].order.id == orderId then orders[0].(order := orders[0].order.(status := newStatus)) else orders[0]]
         + ReplaceStatus(orders[1..], orderId, newStatus)
  }

  /** The matching orders take the new status and change in nothing else;
      every other order is unchanged. */
  lemma {:induction false} ReplaceStatusSpec(orders: seq<DetailedOrder>, orderId: string, newStatus: string, i: nat)
    requires i < |orders|
    ensures var o := ReplaceStatus(orders, orderId, newStatus)[i];
            (orders[i].order.id == orderId ==>
               o.order.status == newStatus && o == orders[i].(order := orders[i].order.(status := newStatus)))
            && (orders[i].order.id != orderId ==> o == orders[i])
  {
    if i > 0 {
      ReplaceStatusSpec(orders[1..], orderId, newStatus, i - 1);
    }
  }

  function HasStatus(filter: string): DetailedOrder -> bool {
    (o: DetailedOrder) => o.order.status == filter
  }

  /** `filteredOrders`. */
  function FilteredOrders(orders: seq<DetailedOrder>, filter: string): seq<DetailedOrder> {
    if filter == "all" then orders else Filter(orders, HasStatus(filter))
  }

  /** 'all' shows every order; any other filter keeps, in order, exactly the
      orders with that status. */
  lemma FilteredOrdersSpec(orders: seq<DetailedOrder>, filter: string, o: DetailedOrder)
    ensures filter == "all" ==> FilteredOrders(orders, filter) == orders
    ensures filter != "all" ==> (o in FilteredOrders(orders, filter) <==> o in orders && o.order.status == filter)
    ensures IsSubsequence(FilteredOrders(orders, filter), orders)
  {
    FilterMembers(orders, HasStatus(filter), o);
    FilterIsSubsequence(orders, HasStatus(filter));
    if filter == "all" {
      FilterAll(orders, (x: DetailedOrder) => true);
      FilterIsSubsequence(orders, (x: DetailedOrder) => true);
    }
  }

  /** The status buttons shown under each order. */
  const StatusOptions: seq<string> := ["pending", "confirmed", "preparing", "out_for_delivery", "delivered", "cancelled"]

  /** A button is disabled when it names the order's current status. */
  predicate OptionDisabled(o: Order, value: string) {
    o.status == value
  }

  /** An order whose status is one of the options has exactly that button
      disabled; an order at any other status, such as 'ready', has none. */
  lemma DisabledOptions(o: Order)
    ensures o.status in StatusOptions ==>
              exists k :: 0 <= k < |StatusOptions| && OptionDisabled(o, StatusOptions[k])
                          && forall j :: 0 <= j < |StatusOptions| && j != k ==> !OptionDisabled(o, StatusOptions[j])
    ensures o.status !in StatusOptions ==> forall j :: 0 <= j < |StatusOptions| ==> !OptionDisabled(o, StatusOptions[j])
    ensures o.status == "ready" ==> o.status !in StatusOptions
  {
    if o.status in StatusOptions {
      var k :| 0 <= k < |StatusOptions| && StatusOptions[k] == o.status;
      assert forall j :: 0 <= j < |StatusOptions| && j != k ==> StatusOptions[j] != StatusOptions[k];
    }
  }

  /** The reply of the orders query. */
  datatype OrdersReply = OrdersFailed | OrdersLoaded(data: Option<seq<Order>>)

  class OwnerOrderQueue {
    var orders: seq<DetailedOrder>
    var loading: bool
    var filter: string

    constructor ()
      ensures orders == [] && loading && filter == "all"
    {
      orders := [];
      loading := true;
      filter := "all";
    }

    /** `fetchOrders`: an owner without restaurants, or a failed query,
        keeps the list; otherwise it holds the fetched orders with their
        restaurants' names. Loading ends false either way. */
    method FetchOrders(restaurantsData: Option<seq<RestaurantRef>>, reply: OrdersReply)
      modifies this
      ensures !loading && filter == old(filter)
      ensures RestaurantIds(restaurantsData) == [] || reply.OrdersFailed? ==> orders == old(orders)
      ensures RestaurantIds(restaurantsData) != [] && reply.OrdersLoaded? ==>
                orders == Detailed(if reply.data.Some? then reply.data.value else [], restaurantsData.value)
    {
      var ids := RestaurantIds(restaurantsData);
      if |ids| == 0 {
        loading := false;
        return;
      }
      if reply.OrdersLoaded? {
        orders := Detailed(if reply.data.Some? then reply.data.value else [], restaurantsData.value);
      }
      loading := false;
    }

    /** The filter buttons: 'all' or one of the status options. */
    method SetFilter(value: string)
      requires value == "all" || value in StatusOptions
      modifies this
      ensures filter == value && orders == old(orders) && loading == old(loading)
    {
      filter := value;
    }

    /** `updateOrderStatus`: the local list changes only after a successful
        write; a failure raises an alert instead. */
    method UpdateOrderStatus(orderId: string, newStatus: string, failed: bool) returns (alerted: bool)
      modifies this
      ensures alerted == failed
      ensures !failed ==> orders == ReplaceStatus(old(orders), orderId, newStatus)
      ensures failed ==> orders == old(orders)
      ensures loading == old(loading) && filter == old(filter)
    {
      if failed {
        return true;
      }
      orders := ReplaceStatus(orders, orderId, newStatus);
      return false;
    }
  }

  /** A new queue for an owner without restaurants ends loaded and empty. */
  method NoRestaurantsShowsNothing(reply: OrdersReply) returns (q: OwnerOrderQueue)
    ensures q.orders == [] && !q.loading
  {
    q := new OwnerOrderQueue();
    q.FetchOrders(Some([]), reply);
  }
}
