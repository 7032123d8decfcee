/** The administrator's dashboard of src/pages/Admin/Dashboard.tsx: today's
    counts, the popular items tallied from the ordered item names, the
    seven-day revenue series with its weekday labels, the chart scale and
    the status colours. Backend replies and the weekday are parameters;
    money is whole cents. */
module Dashboard {
  import opened Common
  import opened Records

  // ---------------------------------------------------------------------------
  // Today's figures

  /** The `total_amount, status` columns of one of today's orders. */
  datatype TodayOrder = TodayOrder(totalCents: int, status: string)

  datatype TodayStats = TodayStats(orders: nat, revenueCents: int, pending: nat)

  function IsPending(): TodayOrder -> bool {
    (o: TodayOrder) => o.status == "pending"
  }

  function Totals(orders: seq<TodayOrder>): (r: seq<int>)
    ensures |r| == |orders| && forall i :: 0 <= i < |r| ==> r[i] == orders[i].totalCents
  {
    if orders == [] then [] else [orders[0].totalCents] + Totals(orders[1..])
  }

  /** The three figures taken from today's orders (missing data counts as none). */
  function Today(data: Option<seq<TodayOrder>>): (s: TodayStats)
    ensures data.None? ==> s == TodayStats(0, 0, 0)
    ensures data.Some? ==>
              s.orders == |data.value| && s.revenueCents == Sum(Totals(data.value))
              && s.pending == Count(data.value, IsPending())
    ensures s.pending <= s.orders
  {
    if data.None? then TodayStats(0, 0, 0)
    else TodayStats(|data.value|, Sum(Totals(data.value)), Count(data.value, IsPending()))
  }

  // ---------------------------------------------------------------------------
  // Popular items

  /** One `{ name, count }` entry. */
  datatype ItemCount = ItemCount(name: string, count: nat)

  /** What `Object.entries(itemCounts)` holds after the tally: each ordered
      name once, in order of first occurrence, with its number of rows. */
  function Tally(names: seq<string>): (r: seq<ItemCount>)
    ensures |r| == |Distinct(names)|
    ensures forall i :: 0 <= i < |r| ==> r[i].name == Distinct(names)[i] && r[i].count == multiset(names)[r[i].name]
  {
    var d := Distinct(names);
    seq(|d|, i requires 0 <= i < |d| => ItemCount(d[i], multiset(names)[d[i]]))
  }

  predicate DistinctNames(s: seq<ItemCount>) {
    forall i, j :: 0 <= i < j < |s| ==> s[i].name != s[j].name
  }

  /** Each ordered name has one entry, whose count is at least one and is
      the name's number of rows. */
  lemma TallySpec(names: seq<string>)
    ensures DistinctNames(Tally(names))
    ensures forall n :: n in names ==> ItemCount(n, multiset(names)[n]) in Tally(names)
    ensures forall e :: e in Tally(names) ==> e.name in names && e.count >= 1
  {
    DistinctSpec(names);
    var t := Tally(names);
    var d := Distinct(names);
    forall n | n in names
      ensures ItemCount(n, multiset(names)[n]) in t
    {
      var k :| 0 <= k < |d| && d[k] == n;
      assert t[k] == ItemCount(n, multiset(names)[n]);
    }
  }

  /** The `forEach` that fills `itemCounts`, followed by `Object.entries`. */
  method CountItems(names: seq<string>) returns (entries: seq<ItemCount>)
    ensures entries == Tally(names)
  {
    var counts: map<string, nat> := map[];
    var keys: seq<string> := [];
    var i := 0;
    while i < |names|
      invariant 0 <= i <= |names|
      invariant keys == Distinct(names[..i])
      invariant forall x :: x in counts <==> x in names[..i]
      invariant forall x :: x in counts ==> counts[x] == multiset(names[..i])[x]
    {
      var n := names[i];
      assert names[..i + 1] == names[..i] + [n];
      assert names[..i + 1][..i] == names[..i];
      DistinctHas(names[..i], n);
      if n in counts {
        counts := counts[n := counts[n] + 1];
      } else {
        counts := counts[n := 1];
        keys := keys + [n];
      }
      i := i + 1;
    }
    assert names[..i] == names;
    forall k | 0 <= k < |keys|
      ensures keys[k] in counts
    {
      DistinctHas(names, keys[k]);
    }
    entries := seq(|keys|, k requires 0 <= k < |keys| => ItemCount(keys[k], counts[keys[k]]));
  }

  predicate NonIncreasing(s: seq<ItemCount>) {
    forall i, j :: 0 <= i < j < |s| ==> s[i].count >= s[j].count
  }

  /** Puts an entry before the first one whose count is not larger, so that
      among equal counts the earlier entry stays first. */
  function Insert(e: ItemCount, s: seq<ItemCount>): (r: seq<ItemCount>)
    ensures multiset(r) == multiset(s) + multiset{e}
  {
    if s == [] then [e]
    else if s[0].count <= e.count then [e] + s
    else
      assert s == [s[0]] + s[1..];
      [s[0]] + Insert(e, s[1..])
  }

  /** `.sort((a, b) => b[1] - a[1])`, a stable sort by count, largest first. */
  function SortByCount(s: seq<ItemCount>): (r: seq<ItemCount>)
    ensures multiset(r) == multiset(s)
  {
    if s == [] then []
    else
      assert s == [s[0]] + s[1..];
      Insert(s[0], SortByCount(s[1..]))
  }

  lemma {:induction false} InsertMembers(e: ItemCount, s: seq<ItemCount>, x: ItemCount)
    ensures x in Insert(e, s) <==> x == e || x in s
  {
    if s != [] && s[0].count > e.count {
      InsertMembers(e, s[1..], x);
      assert s == [s[0]] + s[1..];
    }
  }

  /** Helper: a head no smaller than every later count keeps the order. */
  lemma ConsNonIncreasing(h: ItemCount, t: seq<ItemCount>)
    requires NonIncreasing(t)
    requires forall x :: x in t ==> x.count <= h.count
    ensures NonIncreasing([h] + t)
  {
    var r := [h] + t;
    forall i, j | 0 <= i < j < |r|
      ensures r[i].count >= r[j].count
    {
      assert r[j] == t[j - 1];
      if i > 0 {
        assert r[i] == t[i - 1];
      } else {
        assert t[j - 1] in t;
      }
    }
  }

  /** Helper: a head whose name no later entry has keeps the names distinct. */
  lemma ConsDistinctNames(h: ItemCount, t: seq<ItemCount>)
    requires DistinctNames(t)
    requires forall x :: x in t ==> x.name != h.name
    ensures DistinctNames([h] + t)
  {
    var r := [h] + t;
    forall i, j | 0 <= i < j < |r|
      ensures r[i].name != r[j].name
    {
      assert r[j] == t[j - 1];
      if i > 0 {
        assert r[i] == t[i - 1];
      } else {
        assert t[j - 1] in t;
      }
    }
  }

  lemma {:induction false} InsertSorted(e: ItemCount, s: seq<ItemCount>)
    requires NonIncreasing(s)
    ensures NonIncreasing(Insert(e, s))
  {
    if s == [] {
    } else if s[0].count <= e.count {
      forall x | x in s
        ensures x.count <= e.count
      {
        var k :| 0 <= k < |s| && s[k] == x;
        assert s[0].count >= s[k].count || k == 0;
      }
      ConsNonIncreasing(e, s);
    } else {
      assert NonIncreasing(s[1..]) by {
        forall i, j | 0 <= i < j < |s[1..]|
          ensures s[1..][i].count >= s[1..][j].count
        {
          assert s[1..][i] == s[i + 1] && s[1..][j] == s[j + 1];
        }
      }
      InsertSorted(e, s[1..]);
      var t := Insert(e, s[1..]);
      forall x | x in t
        ensures x.count <= s[0].count
      {
        InsertMembers(e, s[1..], x);
        if x != e {
          var k :| 0 <= k < |s[1..]| && s[1..][k] == x;
          assert s[k + 1] == x;
        }
      }
      ConsNonIncreasing(s[0], t);
    }
  }

  lemma {:induction false} InsertDistinct(e: ItemCount, s: seq<ItemCount>)
    requires DistinctNames(s)
    requires forall x :: x in s ==> x.name != e.name
    ensures DistinctNames(Insert(e, s))
  {
    if s == [] {
    } else if s[0].count <= e.count {
      ConsDistinctNames(e, s);
    } else {
      assert DistinctNames(s[1..]) by {
        forall i, j | 0 <= i < j < |s[1..]|
          ensures s[1..][i].name != s[1..][j].name
        {
          assert s[1..][i] == s[i + 1] && s[1..][j] == s[j + 1];
        }
      }
      forall x | x in s[1..]
        ensures x.name != e.name
      {
        var k :| 0 <= k < |s[1..]| && s[1..][k] == x;
        assert s[k + 1] == x;
      }
      InsertDistinct(e, s[1..]);
      var t := Insert(e, s[1..]);
      forall x | x in t
        ensures x.name != s[0].name
      {
        InsertMembers(e, s[1..], x);
        if x != e {
          var k :| 0 <= k < |s[1..]| && s[1..][k] == x;
          assert s[k + 1] == x;
        } else {
          assert s[0] in s;
        }
      }
      ConsDistinctNames(s[0], t);
    }
  }

  /** The sort orders by count and keeps the entries and their distinct names. */
  lemma {:induction false} SortSpec(s: seq<ItemCount>)
    ensures NonIncreasing(SortByCount(s))
    ensures DistinctNames(s) ==> DistinctNames(SortByCount(s))
  {
    if s != [] {
      SortSpec(s[1..]);
      InsertSorted(s[0], SortByCount(s[1..]));
      if DistinctNames(s) {
        assert DistinctNames(s[1..]) by {
          forall i, j | 0 <= i < j < |s[1..]|
            ensures s[1..][i].name != s[1..][j].name
          {
            assert s[1..][i] == s[i + 1] && s[1..][j] == s[j + 1];
          }
        }
        forall x | x in SortByCount(s[1..])
          ensures x.name != s[0].name
        {
          assert x in multiset(SortByCount(s[1..]));
          var k :| 0 <= k < |s[1..]| && s[1..][k] == x;
          assert s[k + 1] == x;
        }
        InsertDistinct(s[0], SortByCount(s[1..]));
      }
    }
  }

  /** `popularItems`: the tally sorted by count, cut to five entries. */
  function PopularItems(names: seq<string>): (r: seq<ItemCount>)
    ensures |r| <= 5
  {
    var sorted := SortByCount(Tally(names));
    sorted[..if |sorted| < 5 then |sorted| else 5]
  }

  /** At most five entries, largest count first, with distinct names, each
      counting its name's rows. */
  lemma PopularItemsSpec(names: seq<string>)
    ensures var r := PopularItems(names);
            NonIncreasing(r) && DistinctNames(r)
            && (forall i :: 0 <= i < |r| ==> r[i].name in names && r[i].count == multiset(names)[r[i].name])
  {
    var t := Tally(names);
    var sorted := SortByCount(t);
    TallySpec(names);
    SortSpec(t);
    var r := PopularItems(names);
    assert r == sorted[..|r|];
    forall i | 0 <= i < |r|
      ensures r[i].name in names && r[i].count == multiset(names)[r[i].name]
    {
      assert r[i] == sorted[i];
      assert sorted[i] in multiset(t);
    }
  }

  /** An ordered name that is not among the popular items has no more rows
      than the fifth entry. */
  lemma PopularItemsTopFive(names: seq<string>, n: string)
    requires n in names
    ensures var r := PopularItems(names);
            (exists i :: 0 <= i < |r| && r[i].name == n) || (|r| == 5 && multiset(names)[n] <= r[4].count)
  {
    var t := Tally(names);
    var sorted := SortByCount(t);
    TallySpec(names);
    SortSpec(t);
    var r := PopularItems(names);
    var e := ItemCount(n, multiset(names)[n]);
    assert e in t;
    assert e in multiset(sorted);
    var k :| 0 <= k < |sorted| && sorted[k] == e;
    if k < |r| {
      assert r[k] == e;
    } else {
      assert r[4] == sorted[4];
      assert sorted[4].count >= sorted[k].count;
    }
  }

  // ---------------------------------------------------------------------------
  // The week

  /** The revenue of one day's reply; missing data is nothing. */
  function DayRevenue(reply: Option<seq<int>>): int {
    if reply.None? then 0 else Sum(reply.value)
  }

  /** The `for (let i = 6; i >= 0; i--)` loop: one entry per day, oldest
      first, where `dayReply(k)` is the reply for the day `k` days ago. */
  method WeeklyRevenue(dayReply: nat -> Option<seq<int>>) returns (weekly: seq<int>)
    ensures |weekly| == 7
    ensures forall k :: 0 <= k < 7 ==> weekly[k] == DayRevenue(dayReply(6 - k))
    ensures weekly[6] == DayRevenue(dayReply(0))
  {
    weekly := [];
    var i := 6;
    while i >= 0
      invariant -1 <= i <= 6
      invariant |weekly| == 6 - i
      invariant forall k :: 0 <= k < |weekly| ==> weekly[k] == DayRevenue(dayReply(6 - k))
    {
      weekly := weekly + [DayRevenue(dayReply(i))];
      i := i - 1;
    }
  }

  const Days: seq<string> := ["Sun", "Mon", "Tue", "Wed", "Thu", "Fri", "Sat"]

  /** The weekday index of the label at position `k`. */
  function LabelIndex(todayIndex: nat, k: nat): (d: nat)
    requires k < 7
    ensures d < 7
  {
    (todayIndex - (6 - k) + 7) % 7
  }

  /** The `dayLabels` loop, for the weekday `todayIndex` (0 is Sunday); the
      sum inside `%` is never negative, so JavaScript's remainder agrees. */
  method DayLabels(todayIndex: nat) returns (labels: seq<string>)
    ensures |labels| == 7
    ensures forall k :: 0 <= k < 7 ==> labels[k] == Days[LabelIndex(todayIndex, k)]
  {
    labels := [];
    var i := 6;
    while i >= 0
      invariant -1 <= i <= 6
      invariant |labels| == 6 - i
      invariant forall k :: 0 <= k < |labels| ==> labels[k] == Days[LabelIndex(todayIndex, k)]
    {
      var dayIndex := (todayIndex - i + 7) % 7;
      labels := labels + [Days[dayIndex]];
      i := i - 1;
    }
  }

  /** The last label is today's weekday and each label is the day after the
      one before it. */
  lemma DayLabelsSpec(todayIndex: nat, k: nat)
    requires todayIndex < 7 && k < 6
    ensures LabelIndex(todayIndex, 6) == todayIndex
    ensures LabelIndex(todayIndex, k + 1) == (LabelIndex(todayIndex, k) + 1) % 7
  {
    var a := todayIndex + k + 1;
    assert todayIndex - (6 - 6) + 7 == todayIndex + 7;
    ModSeven(todayIndex + 7);
    assert todayIndex - (6 - k) + 7 == a;
    assert todayIndex - (6 - (k + 1)) + 7 == a + 1;
    ModSeven(a);
    ModSeven(a + 1);
    ModSeven(LabelIndex(todayIndex, k) + 1);
  }

  /** Helper: the remainder by 7 of a number below 14. */
  lemma ModSeven(x: int)
    requires 0 <= x < 14
    ensures x % 7 == (if x < 7 then x else x - 7)
  {
  }

  /** `Math.max(...weeklyRevenue, 1)`. */
  function MaxRevenue(weekly: seq<int>): (m: int)
    ensures m >= 1
    ensures forall i :: 0 <= i < |weekly| ==> weekly[i] <= m
    ensures m == 1 || exists i :: 0 <= i < |weekly| && weekly[i] == m
  {
    if weekly == [] then 1
    else
      var rest := MaxRevenue(weekly[1..]);
      assert forall i :: 1 <= i < |weekly| ==> weekly[i] == weekly[1..][i - 1];
      if weekly[0] > rest then weekly[0] else rest
  }

  // ---------------------------------------------------------------------------
  // Status colours

  const GrayClass := "bg-gray-100 text-gray-800"

  /** `getStatusColor`: the six order statuses have their own classes,
      anything else is gray. */
  function StatusColor(status: string): string {
    if status == "pending" then "bg-yellow-100 text-yellow-800"
    else if status == "confirmed" then "bg-blue-100 text-blue-800"
    else if status == "preparing" then "bg-orange-100 text-orange-800"
    else if status == "ready" then "bg-purple-100 text-purple-800"
    else if status == "delivered" then "bg-emerald-100 text-emerald-800"
    else if status == "cancelled" then "bg-red-100 text-red-800"
    else GrayClass
  }

  lemma StatusColorSpec(status: string, other: string)
    ensures StatusColor(status) == GrayClass <==> status !in OrderStatuses
    ensures status in OrderStatuses && other in OrderStatuses && status != other ==>
              StatusColor(status) != StatusColor(other)
  {
    ColorInitial(status);
    ColorInitial(other);
  }

  /** Helper: the fourth character of a badge class is the first letter of
      its colour, and it tells the seven classes apart. */
  lemma ColorInitial(status: string)
    ensures |StatusColor(status)| > 3
    ensures StatusColor(status)[3] ==
              if status == "pending" then 'y' else if status == "confirmed" then 'b'
              else if status == "preparing" then 'o' else if status == "ready" then 'p'
              else if status == "delivered" then 'e' else if status == "cancelled" then 'r'
              else 'g'
  {
  }

  // ---------------------------------------------------------------------------
  // The page

  datatype DashboardStats = DashboardStats(
    today: TodayStats,
    totalCustomers: nat,
    totalMenuItems: nat,
    weeklyRevenue: seq<int>,
    popularItems: seq<ItemCount>,
    recentOrders: seq<Order>)

  const InitialStats := DashboardStats(TodayStats(0, 0, 0), 0, 0, [], [], [])

  /** The reply of today's orders query. */
  datatype TodayReply = TodayFailed | TodayLoaded(data: Option<seq<TodayOrder>>)

  function NatOr0(n: Option<nat>): nat {
    if n.None? then 0 else n.value
  }

  function SeqOrEmpty<T>(s: Option<seq<T>>): seq<T> {
    if s.None? then [] else s.value
  }

  class DashboardPage {
    var stats: DashboardStats
    var loading: bool

    constructor ()
      ensures stats == InitialStats && loading
    {
      stats := InitialStats;
      loading := true;
    }

    /** `fetchDashboardData`: only a failure of today's query keeps the old
        figures (and reports it); every other reply is read with its
        fallback. Loading ends false. */
    method FetchDashboardData(today: TodayReply, customers: Option<nat>, menu: Option<nat>,
                              dayReply: nat -> Option<seq<int>>, itemNames: Option<seq<string>>,
                              recent: Option<seq<Order>>) returns (failed: bool)
      modifies this
      ensures !loading
      ensures failed <==> today.TodayFailed?
      ensures failed ==> stats == old(stats)
      ensures !failed ==>
                stats.today == Today(today.data) && stats.totalCustomers == NatOr0(customers)
                && stats.totalMenuItems == NatOr0(menu) && stats.recentOrders == SeqOrEmpty(recent)
                && stats.popularItems == PopularItems(SeqOrEmpty(itemNames))
                && |stats.weeklyRevenue| == 7
                && forall k :: 0 <= k < 7 ==> stats.weeklyRevenue[k] == DayRevenue(dayReply(6 - k))
    {
      if today.TodayFailed? {
        loading := false;
        return true;
      }
      var todayStats := Today(today.data);
      var weekly := WeeklyRevenue(dayReply);
      var entries := CountItems(SeqOrEmpty(itemNames));
      var sorted := SortByCount(entries);
      var popular := sorted[..if |sorted| < 5 then |sorted| else 5];
      stats := DashboardStats(todayStats, NatOr0(customers), NatOr0(menu), weekly, popular, SeqOrEmpty(recent));
      loading := false;
      return false;
    }
  }
}
