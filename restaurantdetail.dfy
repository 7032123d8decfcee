/** A restaurant's menu page, src/pages/RestaurantDetail.tsx: who may add a
    dish to the cart, the category tabs and the dishes shown for a tab. */
module RestaurantDetail {
  import opened Common
  import opened Records
  import opened CartEngine

  /** What pressing "add" does: one of three alerts, or an `addToCart`
      call with this restaurant's id. */
  datatype AddDecision = NeedProfile | CustomersOnly | SignInFirst | AddItem(restaurantId: string)

  /** `handleAddToCart`. */
  function HandleAddToCart(profile: Option<Profile>, user: Option<User>, restaurantId: string): (d: AddDecision)
    ensures d.AddItem? <==>
              profile.Some? && (profile.value.role == "guest" || (profile.value.role == "customer" && user.Some?))
    ensures d.AddItem? ==> d.restaurantId == restaurantId
    ensures profile.None? <==> d == NeedProfile
    ensures d == CustomersOnly <==> profile.Some? && profile.value.role != "customer" && profile.value.role != "guest"
    ensures d == SignInFirst <==> profile.Some? && profile.value.role == "customer" && user.None?
  {
    if profile.None? then NeedProfile
    else
      var role := profile.value.role;
      if role != "customer" && role != "guest" then CustomersOnly
      else if user.None? && role != "guest" then SignInFirst
      else AddItem(restaurantId)
  }

  /** An accepted add binds the cart to this restaurant (unless the shopper
      declines to replace a cart from another one) and keeps the cart's
      invariant. */
  lemma AcceptedAddBindsCart(s: CartState, item: MenuItem, profile: Option<Profile>, user: Option<User>,
                             restaurantId: string, confirmed: bool)
    requires ValidCart(s)
    requires HandleAddToCart(profile, user, restaurantId).AddItem?
    ensures ValidCart(AddStep(s, item, Some(restaurantId), confirmed))
    ensures !(Conflict(s, Some(restaurantId)) && !confirmed) ==>
              AddStep(s, item, Some(restaurantId), confirmed).restaurantId == Some(restaurantId)
  {
    AddStepKeepsInvariant(s, item, restaurantId, confirmed);
    AddStepOutcomes(s, item, Some(restaurantId), confirmed);
  }

  function Categories(items: seq<MenuItem>): (r: seq<string>)
    ensures |r| == |items| && forall i :: 0 <= i < |r| ==> r[i] == items[i].category
  {
    if items == [] then [] else [items[0].category] + Categories(items[1..])
  }

  /** `categories`. */
  function CategoryTabs(items: seq<MenuItem>): seq<string> {
    ["All"] + Distinct(Categories(items))
  }

  /** 'All' first, then each category of the menu once, in order of first
      appearance. */
  lemma CategoryTabsSpec(items: seq<MenuItem>, c: string)
    ensures CategoryTabs(items)[0] == "All"
    ensures c in CategoryTabs(items)[1..] <==> exists item :: item in items && item.category == c
    ensures NoDuplicates(CategoryTabs(items)[1..])
    ensures forall x :: x in CategoryTabs(items)[1..] ==> x in Categories(items)
    ensures var d := CategoryTabs(items)[1..];
            forall i, j :: 0 <= i < j < |d| ==> FirstIndex(Categories(items), d[i]) < FirstIndex(Categories(items), d[j])
  {
    var cs := Categories(items);
    DistinctSpec(cs);
    assert CategoryTabs(items)[1..] == Distinct(cs);
    if c in cs {
      var k :| 0 <= k < |cs| && cs[k] == c;
      assert items[k] in items;
    }
  }

  function InCategory(c: string): MenuItem -> bool {
    (item: MenuItem) => item.category == c
  }

  /** `filteredItems`. */
  function FilteredItems(items: seq<MenuItem>, selected: string): seq<MenuItem> {
    if selected == "All" then items else Filter(items, InCategory(selected))
  }

  /** The 'All' tab shows the whole menu; any other tab exactly its
      category's dishes, in menu order. */
  lemma FilteredItemsSpec(items: seq<MenuItem>, selected: string, x: MenuItem)
    ensures selected == "All" ==> FilteredItems(items, selected) == items
    ensures selected != "All" ==> (x in FilteredItems(items, selected) <==> x in items && x.category == selected)
    ensures selected != "All" ==> IsSubsequence(FilteredItems(items, selected), items)
  {
    FilterMembers(items, InCategory(selected), x);
    FilterIsSubsequence(items, InCategory(selected));
  }
}
