/** The all-day menu of src/pages/Home.tsx: the category of the hour, the
    dishes shown for a category, a dish's quantity in the cart, and the
    plus and minus buttons that act on the cart. The hour is a parameter. */
module Home {
  import opened Common
  import opened Records
  import opened CartEngine
  import opened Checkout

  /** `getCurrentTimeCategory()`, which the page also selects when it mounts. */
  function TimeCategory(hour: int): (c: string)
    ensures c == "morning" <==> 5 <= hour < 12
    ensures c == "afternoon" <==> 12 <= hour < 17
    ensures c == "dinner" <==> hour < 5 || hour >= 17
  {
    if hour >= 5 && hour < 12 then "morning"
    else if hour >= 12 && hour < 17 then "afternoon"
    else "dinner"
  }

  /** Every hour of the day has one of the three menu categories. */
  lemma TimeCategoryTotal(hour: int)
    requires 0 <= hour < 24
    ensures TimeCategory(hour) in MenuCategories
  {
  }

  function ShownFor(selected: string): MenuItem -> bool {
    (item: MenuItem) => item.category == selected || item.category == "all"
  }

  /** `filteredItems`. */
  function FilteredItems(items: seq<MenuItem>, selected: string): seq<MenuItem> {
    Filter(items, ShownFor(selected))
  }

  /** A dish is shown iff its category is the selected one or 'all'; the
      menu's order is kept. */
  lemma FilteredItemsSpec(items: seq<MenuItem>, selected: string, x: MenuItem)
    ensures x in FilteredItems(items, selected) <==> x in items && (x.category == selected || x.category == "all")
    ensures IsSubsequence(FilteredItems(items, selected), items)
  {
    FilterMembers(items, ShownFor(selected), x);
    FilterIsSubsequence(items, ShownFor(selected));
  }

  /** `getItemQuantity(itemId)`. */
  function ItemQuantity(lines: seq<CartLine>, id: string): (q: int)
    ensures Find(lines, id).None? ==> q == 0
    ensures Find(lines, id).Some? ==> q == lines[Find(lines, id).value].quantity
  {
    match Find(lines, id)
    case None => 0
    case Some(k) => lines[k].quantity
  }

  /** In a valid cart a dish's quantity is positive exactly when it has a line. */
  lemma ItemQuantitySpec(s: CartState, id: string)
    requires ValidCart(s)
    ensures ItemQuantity(s.lines, id) > 0 <==> exists l :: l in s.lines && l.item.id == id
    ensures ItemQuantity(s.lines, id) >= 0
  {
    if exists l :: l in s.lines && l.item.id == id {
      var l :| l in s.lines && l.item.id == id;
      var j :| 0 <= j < |s.lines| && s.lines[j] == l;
      assert Find(s.lines, id).Some?;
    }
  }

  /** The minus button: one fewer when there are several, otherwise removal. */
  function MinusStep(s: CartState, id: string): CartState {
    match Find(s.lines, id)
    case Some(k) => if s.lines[k].quantity > 1 then UpdateStep(s, id, s.lines[k].quantity - 1) else RemoveStep(s, id)
    case None => RemoveStep(s, id)
  }

  /** Minus lowers the dish's quantity by one (to nothing from one), and the
      item count with it; with the dish absent it changes nothing. The cart
      stays valid. */
  lemma MinusSpec(s: CartState, id: string)
    requires ValidCart(s)
    ensures ValidCart(MinusStep(s, id))
    ensures ItemQuantity(MinusStep(s, id).lines, id) ==
            (if ItemQuantity(s.lines, id) > 1 then ItemQuantity(s.lines, id) - 1 else 0)
    ensures ItemQuantity(s.lines, id) == 0 ==> MinusStep(s, id) == s
    ensures ItemQuantity(s.lines, id) > 0 ==> ItemCount(MinusStep(s, id).lines) == ItemCount(s.lines) - 1
  {
    match Find(s.lines, id)
    case None => RemoveStepSpec(s, id);
    case Some(k) =>
      if s.lines[k].quantity > 1 {
        MinusSeveral(s, id, k);
      } else {
        MinusLast(s, id, k);
      }
  }

  lemma MinusSeveral(s: CartState, id: string, k: nat)
    requires ValidCart(s) && Find(s.lines, id) == Some(k) && s.lines[k].quantity > 1
    ensures var r := UpdateStep(s, id, s.lines[k].quantity - 1);
            ValidCart(r) && ItemQuantity(r.lines, id) == s.lines[k].quantity - 1
            && ItemCount(r.lines) == ItemCount(s.lines) - 1
  {
    UpdateStepSpec(s, id, s.lines[k].quantity - 1);
    var r := UpdateStep(s, id, s.lines[k].quantity - 1);
    assert r.lines[k].item.id == id;
    assert Find(r.lines, id) == Some(k);
  }

  lemma MinusLast(s: CartState, id: string, k: nat)
    requires ValidCart(s) && Find(s.lines, id) == Some(k) && s.lines[k].quantity <= 1
    ensures var r := RemoveStep(s, id);
            ValidCart(r) && ItemQuantity(r.lines, id) == 0
            && ItemCount(r.lines) == ItemCount(s.lines) - 1
  {
    RemoveStepSpec(s, id);
    var r := RemoveStep(s, id);
    forall j | 0 <= j < |r.lines|
      ensures r.lines[j].item.id != id
    {
      assert r.lines[j] in r.lines;
    }
  }

  // ---------------------------------------------------------------------------
  // Adding from this page

  /** The plus and add buttons as written: `addToCart(item)` passes no
      restaurant id. */
  function HomeAddAsWritten(s: CartState, item: MenuItem, confirmed: bool): CartState {
    AddStep(s, item, None, confirmed)
  }

  /** As written, the first dish added to an empty cart leaves a non-empty
      cart bound to no restaurant, which checkout then refuses for every
      signed-in customer; and any cart bound to a restaurant counts as a
      conflict, so declining cancels the add and confirming empties the
      cart first. */
  lemma HomeAddBreaksCart(item: MenuItem, confirmed: bool, s: CartState, user: Option<User>, profile: Option<Profile>,
                          form: OrderForm, reply: OrderReply, itemsError: Option<Option<string>>)
    ensures ValidCart(InitialCart) && !ValidCart(HomeAddAsWritten(InitialCart, item, confirmed))
    ensures !ProfileIsGuest(profile) ==>
              PlaceOrderFlow(HomeAddAsWritten(InitialCart, item, confirmed), user, profile, form, reply, itemsError)
              == Placement(None, None, UnableMessage, false)
    ensures Truthy(s.restaurantId) ==> Conflict(s, None)
    ensures Truthy(s.restaurantId) && !confirmed ==> HomeAddAsWritten(s, item, confirmed) == s
  {
    assert HomeAddAsWritten(InitialCart, item, confirmed).lines == [CartLine(item, 1)];
  }

  /** The add as intended: with the dish's own restaurant. */
  function HomeAdd(s: CartState, item: MenuItem, confirmed: bool): CartState {
    AddStep(s, item, Some(item.restaurantId), confirmed)
  }

  /** Adding with the dish's restaurant keeps the cart valid, binds it to
      that restaurant, and never asks when the cart already belongs to it. */
  lemma HomeAddKeepsCart(s: CartState, item: MenuItem, confirmed: bool)
    requires ValidCart(s)
    ensures ValidCart(HomeAdd(s, item, confirmed))
    ensures s.restaurantId == Some(item.restaurantId) ==> !Conflict(s, Some(item.restaurantId))
    ensures !(Conflict(s, Some(item.restaurantId)) && !confirmed) ==>
              HomeAdd(s, item, confirmed).restaurantId == Some(item.restaurantId)
              && ItemQuantity(HomeAdd(s, item, confirmed).lines, item.id) >= 1
  {
    AddStepKeepsInvariant(s, item, item.restaurantId, confirmed);
    AddStepOutcomes(s, item, Some(item.restaurantId), confirmed);
    if !(Conflict(s, Some(item.restaurantId)) && !confirmed) {
      var base := if Conflict(s, Some(item.restaurantId)) then [] else s.lines;
      var r := HomeAdd(s, item, confirmed);
      if Find(base, item.id).Some? {
        assert DistinctIds(base);
        AddLineExisting(base, item);
        assert r.lines[Find(base, item.id).value].item.id == item.id;
      } else {
        AddLineNew(base, item);
        assert r.lines[|base|].item.id == item.id;
      }
      ItemQuantitySpec(r, item.id);
      assert r.lines[|r.lines| - 1] in r.lines || Find(r.lines, item.id).Some?;
    }
  }
}
