/** The cart engine (src/contexts/CartContext.tsx): an ordered sequence of
    cart lines bound to at most one restaurant. The transitions are given as
    pure functions on a `CartState`; the `Cart` class holds the two state
    cells of the provider and its methods change them exactly as those
    functions say. */
module CartEngine {
  import opened Common
  import opened Records

  /** A cart line: the menu row as it was added, and how many of it. */
  datatype CartLine = CartLine(item: MenuItem, quantity: int)

  /** The provider's two state cells: `cart` and `restaurantId`. */
  datatype CartState = CartState(lines: seq<CartLine>, restaurantId: Option<string>)

  /** The state a provider starts in and `clearCart` returns to. */
  const InitialCart := CartState([], None)

  // ---------------------------------------------------------------------------
  // Invariant

  function DifferentIds(): (CartLine, CartLine) -> bool {
    (a: CartLine, b: CartLine) => a.item.id != b.item.id
  }

  predicate DistinctIds(lines: seq<CartLine>) {
    Pairwise(lines, DifferentIds())
  }

  predicate PositiveQuantities(lines: seq<CartLine>) {
    forall i :: 0 <= i < |lines| ==> lines[i].quantity >= 1
  }

  /** No two lines share an id, every quantity is at least one, and the cart
      is empty exactly when it is bound to no restaurant. */
  predicate ValidCart(s: CartState) {
    DistinctIds(s.lines) && PositiveQuantities(s.lines) && (s.lines == [] <==> s.restaurantId == None)
  }

  // ---------------------------------------------------------------------------
  // Line lookup and line updates

  /** `cart.find(line => line.id === id)`, as the index of the first match. */
  function Find(lines: seq<CartLine>, id: string): (k: Option<nat>)
    ensures k.Some? ==> (k.value < |lines| && lines[k.value].item.id == id
                         && forall j :: 0 <= j < k.value ==> lines[j].item.id != id)
    ensures k.None? ==> forall j :: 0 <= j < |lines| ==> lines[j].item.id != id
  {
    if lines == [] then None
    else if lines[0].item.id == id then Some(0)
    else match Find(lines[1..], id)
      case None => None
      case Some(j) => Some(j + 1)
  }

  /** The `map` that raises the quantity of every line with this id by one. */
  function Bump(lines: seq<CartLine>, id: string): (r: seq<CartLine>)
    ensures |r| == |lines|
    ensures forall i {:trigger r[i]} :: 0 <= i < |r| ==>
              r[i].item == lines[i].item
              && r[i].quantity == (if lines[i].item.id == id then lines[i].quantity + 1 else lines[i].quantity)
  {
    if lines == [] then []
    else [if lines[0].item.id == id then lines[0].(quantity := lines[0].quantity + 1) else lines[0]]
         + Bump(lines[1..], id)
  }

  /** The `map` that sets the quantity of every line with this id. */
  function SetLineQuantity(lines: seq<CartLine>, id: string, q: int): (r: seq<CartLine>)
    ensures |r| == |lines|
    ensures forall i {:trigger r[i]} :: 0 <= i < |r| ==>
              r[i].item == lines[i].item && r[i].quantity == (if lines[i].item.id == id then q else lines[i].quantity)
  {
    if lines == [] then []
    else [if lines[0].item.id == id then lines[0].(quantity := q) else lines[0]]
         + SetLineQuantity(lines[1..], id, q)
  }

  function KeepsOtherIds(id: string): CartLine -> bool {
    (l: CartLine) => l.item.id != id
  }

  /** `cart.filter(line => line.id !== id)`. */
  function RemoveLines(lines: seq<CartLine>, id: string): seq<CartLine> {
    Filter(lines, KeepsOtherIds(id))
  }

  /** The state updater `addToCart` hands to `setCart`. */
  function AddLine(lines: seq<CartLine>, item: MenuItem): seq<CartLine> {
    if Find(lines, item.id).Some? then Bump(lines, item.id) else lines + [CartLine(item, 1)]
  }

  // ---------------------------------------------------------------------------
  // Transitions

  /** The cart is bound to a restaurant (a truthy id) other than the one the
      item is added from. `None` for the new id is a call without one. */
  predicate Conflict(s: CartState, newRestaurantId: Option<string>) {
    Truthy(s.restaurantId) && s.restaurantId != newRestaurantId
  }

  /** `addToCart(item, newRestaurantId)`, where `confirmed` is the answer the
      user gives when asked to clear a conflicting cart. */
  function AddStep(s: CartState, item: MenuItem, newRestaurantId: Option<string>, confirmed: bool): CartState {
    if Conflict(s, newRestaurantId) && !confirmed then s
    else CartState(AddLine(if Conflict(s, newRestaurantId) then [] else s.lines, item), newRestaurantId)
  }

  /** `removeFromCart(id)`. */
  function RemoveStep(s: CartState, id: string): CartState {
    var rest := RemoveLines(s.lines, id);
    CartState(rest, if rest == [] then None else s.restaurantId)
  }

  /** `updateQuantity(id, q)`. */
  function UpdateStep(s: CartState, id: string, q: int): CartState {
    if q <= 0 then RemoveStep(s, id) else CartState(SetLineQuantity(s.lines, id, q), s.restaurantId)
  }

  // ---------------------------------------------------------------------------
  // Derived values

  function Amount(l: CartLine): int {
    l.item.priceCents * l.quantity
  }

  /** `getTotalAmount()`: the sum of price times quantity, in cents. */
  function Total(lines: seq<CartLine>): int {
    if lines == [] then 0 else Amount(lines[0]) + Total(lines[1..])
  }

  /** `getItemCount()`: the sum of the quantities. */
  function ItemCount(lines: seq<CartLine>): int {
    if lines == [] then 0 else lines[0].quantity + ItemCount(lines[1..])
  }

  // ---------------------------------------------------------------------------
  // Properties

  lemma {:induction false} TotalsAppend(lines: seq<CartLine>, l: CartLine)
    ensures Total(lines + [l]) == Total(lines) + Amount(l)
    ensures ItemCount(lines + [l]) == ItemCount(lines) + l.quantity
  {
    if lines != [] {
      assert (lines + [l])[1..] == lines[1..] + [l];
      TotalsAppend(lines[1..], l);
    }
  }

  /** With positive quantities there are at least as many items as lines, and
      the total is never negative. */
  lemma {:induction false} CountsBound(lines: seq<CartLine>)
    requires PositiveQuantities(lines)
    ensures ItemCount(lines) >= |lines|
    ensures Total(lines) >= 0
  {
    if lines != [] {
      CountsBound(lines[1..]);
    }
  }

  /** A map over lines none of which has the id changes nothing. */
  lemma {:induction false} UpdatesMissAbsentId(lines: seq<CartLine>, id: string, q: int)
    requires Find(lines, id).None?
    ensures Bump(lines, id) == lines
    ensures SetLineQuantity(lines, id, q) == lines
  {
    if lines != [] {
      UpdatesMissAbsentId(lines[1..], id, q);
    }
  }

  /** Helper: with distinct ids, the line `Find` names is the only one
      with the id. */
  lemma OnlyMatch(lines: seq<CartLine>, id: string)
    requires DistinctIds(lines) && Find(lines, id).Some?
    ensures forall j :: 0 <= j < |lines| && lines[j].item.id == id ==> j == Find(lines, id).value
  {
    forall a, b | 0 <= a < b < |lines|
      ensures lines[a].item.id != lines[b].item.id
    {
      assert DifferentIds()(lines[a], lines[b]);
    }
  }

  /** Helper: replacing one line moves the totals by the difference. */
  lemma {:induction false} TotalsReplace(lines: seq<CartLine>, k: nat, l: CartLine)
    requires k < |lines|
    ensures Total(lines[k := l]) == Total(lines) - Amount(lines[k]) + Amount(l)
    ensures ItemCount(lines[k := l]) == ItemCount(lines) - lines[k].quantity + l.quantity
    decreases |lines|
  {
    if k == 0 {
      assert lines[k := l][1..] == lines[1..];
    } else {
      assert lines[k := l][1..] == lines[1..][k - 1 := l];
      TotalsReplace(lines[1..], k - 1, l);
    }
  }

  /** Helper: with distinct ids, setting the quantity replaces the one line
      `Find` names. */
  lemma SetAt(lines: seq<CartLine>, id: string, q: int)
    requires DistinctIds(lines) && Find(lines, id).Some?
    ensures var k := Find(lines, id).value;
            SetLineQuantity(lines, id, q) == lines[k := lines[k].(quantity := q)]
  {
    var k := Find(lines, id).value;
    OnlyMatch(lines, id);
    var r := SetLineQuantity(lines, id, q);
    var e := lines[k := lines[k].(quantity := q)];
    assert forall i :: 0 <= i < |r| ==> r[i] == e[i];
  }

  /** Setting the quantity of line `k`, the only line with its id, changes
      that line's quantity and nothing else; totals move by the difference. */
  lemma SetLineQuantitySpec(lines: seq<CartLine>, id: string, q: int)
    requires DistinctIds(lines) && Find(lines, id).Some?
    ensures var k := Find(lines, id).value;
            var r := SetLineQuantity(lines, id, q);
            r[k] == lines[k].(quantity := q)
            && (forall j :: 0 <= j < |lines| && j != k ==> r[j] == lines[j])
            && Total(r) == Total(lines) + lines[k].item.priceCents * (q - lines[k].quantity)
            && ItemCount(r) == ItemCount(lines) + (q - lines[k].quantity)
  {
    var k := Find(lines, id).value;
    SetAt(lines, id, q);
    TotalsReplace(lines, k, lines[k].(quantity := q));
    AmountAfterSet(lines[k], q);
  }

  /** Helper: a new quantity moves a line's amount by the price times the
      difference. */
  lemma AmountAfterSet(l: CartLine, q: int)
    ensures Amount(l.(quantity := q)) == Amount(l) + l.item.priceCents * (q - l.quantity)
  {
    calc {
      Amount(l.(quantity := q));
      l.item.priceCents * q;
      l.item.priceCents * l.quantity + l.item.priceCents * (q - l.quantity);
    }
  }

  /** Helper: with distinct ids, raising by one replaces the one line
      `Find` names. */
  lemma BumpAt(lines: seq<CartLine>, id: string)
    requires DistinctIds(lines) && Find(lines, id).Some?
    ensures var k := Find(lines, id).value;
            Bump(lines, id) == lines[k := lines[k].(quantity := lines[k].quantity + 1)]
  {
    var k := Find(lines, id).value;
    OnlyMatch(lines, id);
    var b := Bump(lines, id);
    var e := lines[k := lines[k].(quantity := lines[k].quantity + 1)];
    assert forall i :: 0 <= i < |b| ==> b[i] == e[i];
  }

  /** With distinct ids, raising a line by one is setting it to one more. */
  lemma BumpIsSetQuantity(lines: seq<CartLine>, id: string)
    requires DistinctIds(lines) && Find(lines, id).Some?
    ensures Bump(lines, id) == SetLineQuantity(lines, id, lines[Find(lines, id).value].quantity + 1)
  {
    var k := Find(lines, id).value;
    BumpAt(lines, id);
    SetAt(lines, id, lines[k].quantity + 1);
  }

  /** Adding an item whose id is already in the cart raises that line's
      quantity by one, keeps every other line and the length, and adds the
      line's price to the total. */
  lemma AddLineExisting(lines: seq<CartLine>, item: MenuItem)
    requires DistinctIds(lines) && Find(lines, item.id).Some?
    ensures var k := Find(lines, item.id).value;
            var r := AddLine(lines, item);
            |r| == |lines|
            && r[k] == lines[k].(quantity := lines[k].quantity + 1)
            && (forall j :: 0 <= j < |lines| && j != k ==> r[j] == lines[j])
            && Total(r) == Total(lines) + lines[k].item.priceCents
            && ItemCount(r) == ItemCount(lines) + 1
  {
    var k := Find(lines, item.id).value;
    var l := lines[k].(quantity := lines[k].quantity + 1);
    BumpAt(lines, item.id);
    assert AddLine(lines, item) == lines[k := l];
    TotalsReplace(lines, k, l);
    AmountAfterSet(lines[k], lines[k].quantity + 1);
  }

  /** Adding an item whose id is not in the cart appends it with quantity one. */
  lemma AddLineNew(lines: seq<CartLine>, item: MenuItem)
    requires Find(lines, item.id).None?
    ensures AddLine(lines, item) == lines + [CartLine(item, 1)]
    ensures Total(AddLine(lines, item)) == Total(lines) + item.priceCents
    ensures ItemCount(AddLine(lines, item)) == ItemCount(lines) + 1
  {
    TotalsAppend(lines, CartLine(item, 1));
  }

  /** The three outcomes of `addToCart`: a declined conflict changes nothing;
      an accepted conflict leaves exactly the new item, bound to the new
      restaurant; every completed add binds the cart to the new restaurant. */
  lemma AddStepOutcomes(s: CartState, item: MenuItem, newRestaurantId: Option<string>, confirmed: bool)
    ensures Conflict(s, newRestaurantId) && !confirmed ==> AddStep(s, item, newRestaurantId, confirmed) == s
    ensures Conflict(s, newRestaurantId) && confirmed ==>
              AddStep(s, item, newRestaurantId, confirmed) == CartState([CartLine(item, 1)], newRestaurantId)
    ensures !(Conflict(s, newRestaurantId) && !confirmed) ==>
              AddStep(s, item, newRestaurantId, confirmed).restaurantId == newRestaurantId
              && AddStep(s, item, newRestaurantId, confirmed).lines != []
  {
  }

  /** Adding a line keeps the ids distinct and the quantities positive. */
  lemma AddLineKeepsInvariant(lines: seq<CartLine>, item: MenuItem)
    requires DistinctIds(lines) && PositiveQuantities(lines)
    ensures DistinctIds(AddLine(lines, item)) && PositiveQuantities(AddLine(lines, item))
  {
    var r := AddLine(lines, item);
    if Find(lines, item.id).Some? {
      AddLineExisting(lines, item);
      var k := Find(lines, item.id).value;
      forall i, j | 0 <= i < j < |r|
        ensures DifferentIds()(r[i], r[j])
      {
        assert r[i].item == lines[i].item && r[j].item == lines[j].item;
        assert DifferentIds()(lines[i], lines[j]);
      }
    } else {
      forall i, j | 0 <= i < j < |r|
        ensures DifferentIds()(r[i], r[j])
      {
        if j == |lines| {
          assert r[j].item.id == item.id;
        } else {
          assert DifferentIds()(lines[i], lines[j]);
        }
      }
    }
  }

  /** `addToCart` with a restaurant id preserves the cart invariant. */
  lemma AddStepKeepsInvariant(s: CartState, item: MenuItem, newRestaurantId: string, confirmed: bool)
    requires ValidCart(s)
    ensures ValidCart(AddStep(s, item, Some(newRestaurantId), confirmed))
  {
    if !(Conflict(s, Some(newRestaurantId)) && !confirmed) {
      var base := if Conflict(s, Some(newRestaurantId)) then [] else s.lines;
      AddLineKeepsInvariant(base, item);
    }
  }

  /** Removing drops exactly the lines with that id, keeps the others in
      order, unbinds the restaurant exactly when nothing is left, keeps the
      invariant, and takes the removed line out of the totals. */
  lemma RemoveStepSpec(s: CartState, id: string)
    requires ValidCart(s)
    ensures var r := RemoveStep(s, id);
            (forall l :: l in r.lines <==> l in s.lines && l.item.id != id)
            && IsSubsequence(r.lines, s.lines)
            && (r.restaurantId == None <==> r.lines == [])
            && (r.lines != [] ==> r.restaurantId == s.restaurantId)
            && ValidCart(r)
    ensures Find(s.lines, id).None? ==> RemoveStep(s, id).lines == s.lines
    ensures Find(s.lines, id).Some? ==>
              Total(RemoveStep(s, id).lines) == Total(s.lines) - Amount(s.lines[Find(s.lines, id).value])
              && ItemCount(RemoveStep(s, id).lines) == ItemCount(s.lines) - s.lines[Find(s.lines, id).value].quantity
  {
    var r := RemoveStep(s, id);
    forall l
      ensures l in r.lines <==> l in s.lines && l.item.id != id
    {
      FilterMembers(s.lines, KeepsOtherIds(id), l);
    }
    FilterIsSubsequence(s.lines, KeepsOtherIds(id));
    FilterPairwise(s.lines, KeepsOtherIds(id), DifferentIds());
    forall i | 0 <= i < |r.lines|
      ensures r.lines[i].quantity >= 1
    {
      assert r.lines[i] in s.lines;
    }
    RemoveTotals(s.lines, id);
  }

  lemma {:induction false} RemoveTotals(lines: seq<CartLine>, id: string)
    requires DistinctIds(lines)
    ensures Find(lines, id).None? ==> RemoveLines(lines, id) == lines
    ensures Find(lines, id).Some? ==>
              Total(RemoveLines(lines, id)) == Total(lines) - Amount(lines[Find(lines, id).value])
              && ItemCount(RemoveLines(lines, id)) == ItemCount(lines) - lines[Find(lines, id).value].quantity
  {
    if lines != [] {
      var t := RemoveLines(lines[1..], id);
      assert DistinctIds(lines[1..]) by {
        forall i, j | 0 <= i < j < |lines[1..]|
          ensures DifferentIds()(lines[1..][i], lines[1..][j])
        {
          assert DifferentIds()(lines[i + 1], lines[j + 1]);
        }
      }
      RemoveTotals(lines[1..], id);
      if lines[0].item.id == id {
        assert RemoveLines(lines, id) == t;
        assert Find(lines[1..], id).None? by {
          forall j | 0 <= j < |lines[1..]|
            ensures lines[1..][j].item.id != id
          {
            assert DifferentIds()(lines[0], lines[j + 1]);
          }
        }
      } else {
        assert RemoveLines(lines, id) == [lines[0]] + t;
        assert ([lines[0]] + t)[1..] == t;
      }
    }
  }

  /** `updateQuantity` with a non-positive quantity is a removal; with a
      positive one it sets (not adds to) the matching line's quantity and an
      unknown id changes nothing; either way the invariant is kept. */
  lemma UpdateStepSpec(s: CartState, id: string, q: int)
    requires ValidCart(s)
    ensures q <= 0 ==> UpdateStep(s, id, q) == RemoveStep(s, id)
    ensures q > 0 && Find(s.lines, id).None? ==> UpdateStep(s, id, q) == s
    ensures q > 0 && Find(s.lines, id).Some? ==>
              var k := Find(s.lines, id).value;
              var r := UpdateStep(s, id, q);
              r.restaurantId == s.restaurantId && |r.lines| == |s.lines|
              && r.lines[k] == s.lines[k].(quantity := q)
              && (forall j :: 0 <= j < |s.lines| && j != k ==> r.lines[j] == s.lines[j])
              && ItemCount(r.lines) == ItemCount(s.lines) + (q - s.lines[k].quantity)
    ensures ValidCart(UpdateStep(s, id, q))
  {
    if q <= 0 {
      RemoveStepSpec(s, id);
    } else if Find(s.lines, id).None? {
      UpdatesMissAbsentId(s.lines, id, q);
    } else {
      SetLineQuantitySpec(s.lines, id, q);
      var k := Find(s.lines, id).value;
      var r := UpdateStep(s, id, q);
      forall i, j | 0 <= i < j < |r.lines|
        ensures DifferentIds()(r.lines[i], r.lines[j])
      {
        assert r.lines[i].item == s.lines[i].item && r.lines[j].item == s.lines[j].item;
        assert DifferentIds()(s.lines[i], s.lines[j]);
      }
    }
  }

  /** The initial (and cleared) cart is valid, empty and totals zero. */
  lemma InitialCartSpec()
    ensures ValidCart(InitialCart)
    ensures Total(InitialCart.lines) == 0 && ItemCount(InitialCart.lines) == 0
  {
  }

  // ---------------------------------------------------------------------------
  // The provider

  /** The origins of the lines `RemoveLines` keeps, position by position. */
  ghost function KeptOrigins(lines: seq<CartLine>, origins: seq<string>, id: string): (r: seq<string>)
    requires |origins| == |lines|
    ensures |r| == |RemoveLines(lines, id)|
    ensures forall o :: o in r ==> o in origins
  {
    if lines == [] then []
    else
      assert Filter(lines, KeepsOtherIds(id)) == (if lines[0].item.id != id then [lines[0]] else []) + RemoveLines(lines[1..], id);
      var rest := KeptOrigins(lines[1..], origins[1..], id);
      assert forall o :: o in rest ==> o in origins;
      (if lines[0].item.id != id then [origins[0]] else []) + rest
  }

  /** A removal keeps every kept line's origin equal to the restaurant the
      cart stays bound to. */
  lemma RemoveKeepsOrigins(s: CartState, origins: seq<string>, id: string)
    requires ValidCart(s) && |origins| == |s.lines|
    requires forall i :: 0 <= i < |origins| ==> Some(origins[i]) == s.restaurantId
    ensures var o := KeptOrigins(s.lines, origins, id);
            forall i :: 0 <= i < |o| ==> Some(o[i]) == RemoveStep(s, id).restaurantId
  {
    var o := KeptOrigins(s.lines, origins, id);
    if o != [] {
      forall i | 0 <= i < |o|
        ensures Some(o[i]) == s.restaurantId
      {
        assert o[i] in origins;
      }
    }
  }

  class Cart {
    var lines: seq<CartLine>
    var restaurantId: Option<string>
    /** For each line, the restaurant id it was added with. */
    ghost var origins: seq<string>

    function State(): CartState
      reads this
    {
      CartState(lines, restaurantId)
    }

    /** The cart invariant, with one recorded origin per line. */
    ghost predicate Valid()
      reads this
    {
      ValidCart(State()) && |origins| == |lines|
    }

    /** Every line was added from the restaurant the cart is bound to. */
    ghost predicate SingleRestaurant()
      reads this
    {
      forall i :: 0 <= i < |origins| ==> Some(origins[i]) == restaurantId
    }

    constructor ()
      ensures State() == InitialCart && origins == []
      ensures Valid() && SingleRestaurant()
    {
      lines := [];
      restaurantId := None;
      origins := [];
    }

    /** `addToCart(item, newRestaurantId)`; `confirmed` is the user's answer
        to the clear-cart prompt, consulted only on a conflict. A new line
        records the id it was added with, a raised line keeps its origin,
        and a confirmed conflict forgets the old lines' origins. With
        non-empty restaurant ids the cart never mixes restaurants. */
    method AddToCart(item: MenuItem, newRestaurantId: string, confirmed: bool)
      requires Valid()
      modifies this
      ensures State() == AddStep(old(State()), item, Some(newRestaurantId), confirmed)
      ensures Valid()
      ensures var conflict := Conflict(old(State()), Some(newRestaurantId));
              var base := if conflict then [] else old(lines);
              var kept := if conflict then [] else old(origins);
              origins == (if conflict && !confirmed then old(origins)
                          else if Find(base, item.id).Some? then kept
                          else kept + [newRestaurantId])
      ensures old(SingleRestaurant()) && old(restaurantId) != Some("") && newRestaurantId != "" ==> SingleRestaurant()
    {
      AddStepKeepsInvariant(State(), item, newRestaurantId, confirmed);
      if Truthy(restaurantId) && restaurantId != Some(newRestaurantId) {
        if !confirmed {
          return;
        }
        lines := [];
        origins := [];
      }
      restaurantId := Some(newRestaurantId);
      if Find(lines, item.id).None? {
        origins := origins + [newRestaurantId];
      }
      lines := AddLine(lines, item);
    }

    /** `removeFromCart(id)`: the kept lines keep their origins. */
    method RemoveFromCart(id: string)
      requires Valid()
      modifies this
      ensures State() == RemoveStep(old(State()), id)
      ensures origins == KeptOrigins(old(lines), old(origins), id)
      ensures Valid()
      ensures old(SingleRestaurant()) ==> SingleRestaurant()
    {
      RemoveStepSpec(State(), id);
      if SingleRestaurant() {
        RemoveKeepsOrigins(State(), origins, id);
      }
      var rest := RemoveLines(lines, id);
      origins := KeptOrigins(lines, origins, id);
      if rest == [] {
        restaurantId := None;
      }
      lines := rest;
    }

    /** `updateQuantity(id, q)`. */
    method UpdateQuantity(id: string, q: int)
      requires Valid()
      modifies this
      ensures State() == UpdateStep(old(State()), id, q)
      ensures origins == (if q <= 0 then KeptOrigins(old(lines), old(origins), id) else old(origins))
      ensures Valid()
      ensures old(SingleRestaurant()) ==> SingleRestaurant()
    {
      UpdateStepSpec(State(), id, q);
      if q <= 0 {
        RemoveFromCart(id);
        return;
      }
      lines := SetLineQuantity(lines, id, q);
    }

    /** `clearCart()`. */
    method ClearCart()
      modifies this
      ensures State() == InitialCart && origins == []
      ensures Valid() && SingleRestaurant()
    {
      lines := [];
      restaurantId := None;
      origins := [];
    }

    /** `getTotalAmount()`, in cents. */
    function TotalAmount(): int
      reads this
    {
      Total(lines)
    }

    /** `getItemCount()`. */
    function ItemCountNow(): int
      reads this
    {
      ItemCount(lines)
    }
  }
}
