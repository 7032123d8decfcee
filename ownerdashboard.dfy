/** The restaurant owner's overview of src/pages/OwnerDashboard.tsx: the
    ids of the owned restaurants and the four figures computed from them
    and their orders. Backend replies are parameters; money is whole cents. */
module OwnerDashboard {
  import opened Common
  import opened Records

  datatype OwnerStats = OwnerStats(totalOrders: nat, pendingOrders: nat, totalRevenueCents: int, activeRestaurants: nat)

  const ZeroStats := OwnerStats(0, 0, 0, 0)

  /** `restaurantsData?.map(r => r.id) || []`. */
  function RestaurantIds(restaurants: seq<Restaurant>): (ids: seq<string>)
    ensures |ids| == |restaurants|
    ensures forall i :: 0 <= i < |ids| ==> ids[i] == restaurants[i].id
  {
    if restaurants == [] then [] else [restaurants[0].id] + RestaurantIds(restaurants[1..])
  }

  function Amounts(orders: seq<Order>): (r: seq<int>)
    ensures |r| == |orders| && forall i :: 0 <= i < |r| ==> r[i] == orders[i].totalCents
  {
    if orders == [] then [] else [orders[0].totalCents] + Amounts(orders[1..])
  }

  function IsPending(): Order -> bool {
    (o: Order) => o.status == "pending"
  }

  function IsActive(): Restaurant -> bool {
    (r: Restaurant) => r.isActive
  }

  function Orders(data: Option<seq<Order>>): seq<Order> {
    if data.None? then [] else data.value
  }

  /** The four figures, from the owned restaurants and all their orders
      (missing data counts as no orders). */
  function StatsOf(restaurants: seq<Restaurant>, allOrders: Option<seq<Order>>): (s: OwnerStats)
    ensures s.totalOrders == |Orders(allOrders)|
    ensures s.pendingOrders == Count(Orders(allOrders), IsPending())
    ensures s.totalRevenueCents == Sum(Amounts(Orders(allOrders)))
    ensures s.activeRestaurants == Count(restaurants, IsActive())
    ensures s.pendingOrders <= s.totalOrders && s.activeRestaurants <= |restaurants|
  {
    var orders := Orders(allOrders);
    OwnerStats(|orders|, Count(orders, IsPending()), Sum(Amounts(orders)), Count(restaurants, IsActive()))
  }

  /** The figures add up over a split of the orders: counts and revenue of
      two batches are those of the batches together. */
  lemma StatsAppend(restaurants: seq<Restaurant>, a: seq<Order>, b: seq<Order>)
    ensures StatsOf(restaurants, Some(a + b)).totalOrders == StatsOf(restaurants, Some(a)).totalOrders + StatsOf(restaurants, Some(b)).totalOrders
    ensures StatsOf(restaurants, Some(a + b)).pendingOrders == StatsOf(restaurants, Some(a)).pendingOrders + StatsOf(restaurants, Some(b)).pendingOrders
    ensures StatsOf(restaurants, Some(a + b)).totalRevenueCents == StatsOf(restaurants, Some(a)).totalRevenueCents + StatsOf(restaurants, Some(b)).totalRevenueCents
  {
    AmountsAppend(a, b);
    SumAppend(Amounts(a), Amounts(b));
    FilterAppend(a, b, IsPending());
  }

  lemma AmountsAppend(a: seq<Order>, b: seq<Order>)
    ensures Amounts(a + b) == Amounts(a) + Amounts(b)
  {
  }

  class OwnerDashboardPage {
    var restaurants: seq<Restaurant>
    var recentOrders: seq<Order>
    var stats: OwnerStats
    var loading: bool

    constructor ()
      ensures restaurants == [] && recentOrders == [] && stats == ZeroStats && loading
    {
      restaurants := [];
      recentOrders := [];
      stats := ZeroStats;
      loading := true;
    }

    /** `fetchDashboardData`: the restaurants are always stored; the orders
        and the figures are replaced only when there is at least one
        restaurant. Loading ends false. */
    method FetchDashboardData(restaurantsData: Option<seq<Restaurant>>, recent: Option<seq<Order>>,
                              allOrders: Option<seq<Order>>)
      modifies this
      ensures !loading
      ensures restaurants == (if restaurantsData.Some? then restaurantsData.value else [])
      ensures |restaurants| == 0 ==> stats == old(stats) && recentOrders == old(recentOrders)
      ensures |restaurants| > 0 ==> stats == StatsOf(restaurants, allOrders) && recentOrders == Orders(recent)
    {
      restaurants := if restaurantsData.Some? then restaurantsData.value else [];
      var ids := RestaurantIds(restaurants);
      if |ids| > 0 {
        recentOrders := Orders(recent);
        stats := StatsOf(restaurants, allOrders);
      }
      loading := false;
    }
  }

  /** An owner without restaurants keeps the zero figures. */
  method NoRestaurantsKeepsZero(recent: Option<seq<Order>>, allOrders: Option<seq<Order>>) returns (page: OwnerDashboardPage)
    ensures page.stats == ZeroStats && page.recentOrders == [] && !page.loading
  {
    page := new OwnerDashboardPage();
    page.FetchDashboardData(None, recent, allOrders);
  }
}
