/** The restaurant owner's back office of src/pages/Admin/AdminPanel.tsx:
    who the owner is, the schedule drafts built from the loaded restaurants,
    editing and saving a draft, the menu composer's submit gate and the
    availability toggle. Backend replies are parameters. */
module AdminPanel {
  import opened Common
  import opened Records

  /** `ownerId`: the owner's id only for the restaurant_owner role, taken
      from the user when signed in and from the profile otherwise. */
  function OwnerId(user: Option<User>, profile: Option<Profile>): (r: Option<string>)
    ensures r.Some? <==> profile.Some? && profile.value.role == "restaurant_owner"
    ensures r.Some? && user.Some? ==> r.value == user.value.id
    ensures r.Some? && user.None? ==> r.value == profile.value.id
  {
    if profile.Some? && profile.value.role == "restaurant_owner" then
      Some(if user.Some? then user.value.id else profile.value.id)
    else None
  }

  // ---------------------------------------------------------------------------
  // Schedule drafts

  /** A `ScheduleDraft` object; a field is `None` when the key is absent,
      which happens when a restaurant without a loaded draft is edited. */
  datatype ScheduleDraft = ScheduleDraft(
    openTime: Option<string>,
    closeTime: Option<string>,
    isOpen: Option<bool>,
    scheduleNotes: Option<string>)

  /** Spreading `prev[restaurantId]` when it is undefined contributes nothing. */
  const NoDraft := ScheduleDraft(None, None, None, None)

  /** A draft with every key present, as `fetchRestaurants` builds them. */
  predicate Complete(d: ScheduleDraft) {
    d.openTime.Some? && d.closeTime.Some? && d.isOpen.Some? && d.scheduleNotes.Some?
  }

  /** The draft `fetchRestaurants` builds for one restaurant. */
  function DraftFor(r: Restaurant): ScheduleDraft {
    ScheduleDraft(
      Some(OrElse(r.openTime, "09:00")),
      Some(OrElse(r.closeTime, "23:00")),
      Some(if r.isOpen.Some? then r.isOpen.value else true),
      Some(OrElse(r.scheduleNotes, "")))
  }

  /** Times fall back to 09:00 and 23:00 when null or empty, notes to the
      empty text; `is_open` falls back to true only when null, so a closed
      restaurant stays closed. */
  lemma DraftDefaults(r: Restaurant)
    ensures Complete(DraftFor(r))
    ensures DraftFor(r).openTime == Some(if Truthy(r.openTime) then r.openTime.value else "09:00")
    ensures DraftFor(r).closeTime == Some(if Truthy(r.closeTime) then r.closeTime.value else "23:00")
    ensures DraftFor(r).openTime.value != "" && DraftFor(r).closeTime.value != ""
    ensures DraftFor(r).isOpen == Some(r.isOpen != Some(false))
    ensures DraftFor(r).scheduleNotes == Some(if r.scheduleNotes.Some? then r.scheduleNotes.value else "")
  {
  }

  /** The draft map of `fetchRestaurants`, filled in list order (a later
      restaurant with the same id overwrites an earlier one). */
  function DraftMap(list: seq<Restaurant>): (m: map<string, ScheduleDraft>)
    ensures forall id :: id in m <==> exists r :: r in list && r.id == id
    decreases |list|
  {
    if list == [] then map[]
    else
      var init := list[..|list| - 1];
      var last := list[|list| - 1];
      assert forall r :: r in list <==> r in init || r == last by { assert list == init + [last]; }
      DraftMap(init)[last.id := DraftFor(last)]
  }

  /** Every restaurant's entry is the draft built from the last restaurant
      in the list carrying its id; with distinct ids, its own. */
  lemma {:induction false} DraftMapEntries(list: seq<Restaurant>, i: nat)
    requires i < |list|
    requires forall j :: i < j < |list| ==> list[j].id != list[i].id
    ensures list[i].id in DraftMap(list) && DraftMap(list)[list[i].id] == DraftFor(list[i])
    decreases |list|
  {
    if i < |list| - 1 {
      var init := list[..|list| - 1];
      assert init[i] == list[i];
      DraftMapEntries(init, i);
    }
  }

  /** The auto-selection of `fetchRestaurants`: the first restaurant, only
      when nothing (or the empty id) is selected and the list is non-empty. */
  function AutoSelect(selected: Option<string>, list: seq<Restaurant>): (r: Option<string>)
    ensures Truthy(selected) || list == [] ==> r == selected
    ensures !Truthy(selected) && list != [] ==> r == Some(list[0].id)
  {
    if !Truthy(selected) && |list| > 0 then Some(list[0].id) else selected
  }

  /** The new key/value pair `handleScheduleChange` writes. */
  datatype ScheduleEdit =
    | SetOpenTime(text: string)
    | SetCloseTime(text: string)
    | SetIsOpen(flag: bool)
    | SetScheduleNotes(text: string)

  function ApplyEdit(d: ScheduleDraft, edit: ScheduleEdit): ScheduleDraft {
    match edit
    case SetOpenTime(t) => d.(openTime := Some(t))
    case SetCloseTime(t) => d.(closeTime := Some(t))
    case SetIsOpen(b) => d.(isOpen := Some(b))
    case SetScheduleNotes(t) => d.(scheduleNotes := Some(t))
  }

  /** `handleScheduleChange`: the restaurant's draft (or nothing) spread,
      with one key overwritten. */
  function ChangeDraft(drafts: map<string, ScheduleDraft>, restaurantId: string, edit: ScheduleEdit)
    : map<string, ScheduleDraft>
  {
    drafts[restaurantId := ApplyEdit(if restaurantId in drafts then drafts[restaurantId] else NoDraft, edit)]
  }

  /** Exactly one key of one draft changes: every other restaurant's draft
      is as it was, and the edited draft keeps its other three keys. */
  lemma ScheduleChangeSpec(drafts: map<string, ScheduleDraft>, restaurantId: string, edit: ScheduleEdit)
    ensures var m := ChangeDraft(drafts, restaurantId, edit);
            m.Keys == drafts.Keys + {restaurantId}
            && forall k :: k in drafts && k != restaurantId ==> m[k] == drafts[k]
    ensures var d := ChangeDraft(drafts, restaurantId, edit)[restaurantId];
            var before := if restaurantId in drafts then drafts[restaurantId] else NoDraft;
            (d.openTime == if edit.SetOpenTime? then Some(edit.text) else before.openTime)
            && (d.closeTime == if edit.SetCloseTime? then Some(edit.text) else before.closeTime)
            && (d.isOpen == if edit.SetIsOpen? then Some(edit.flag) else before.isOpen)
            && (d.scheduleNotes == if edit.SetScheduleNotes? then Some(edit.text) else before.scheduleNotes)
    ensures restaurantId in drafts && Complete(drafts[restaurantId]) ==>
              Complete(ChangeDraft(drafts, restaurantId, edit)[restaurantId])
  {
  }

  /** The four schedule columns a saved draft writes into one restaurant. */
  function WithSchedule(r: Restaurant, d: ScheduleDraft): Restaurant {
    r.(openTime := d.openTime, closeTime := d.closeTime, isOpen := d.isOpen, scheduleNotes := d.scheduleNotes)
  }

  /** The local update after a saved schedule: `prev.map(...)`. */
  function ApplySchedule(list: seq<Restaurant>, restaurantId: string, d: ScheduleDraft): (r: seq<Restaurant>)
    ensures |r| == |list|
    ensures forall i :: 0 <= i < |list| ==>
              r[i] == if list[i].id == restaurantId then WithSchedule(list[i], d) else list[i]
  {
    if list == [] then []
    else [if list[0].id == restaurantId then WithSchedule(list[0], d) else list[0]]
         + ApplySchedule(list[1..], restaurantId, d)
  }

  /** Only the matching restaurants change, only in their four schedule
      columns, and those then hold the draft's values. */
  lemma ApplyScheduleSpec(list: seq<Restaurant>, restaurantId: string, d: ScheduleDraft, i: nat)
    requires i < |list|
    ensures var r := ApplySchedule(list, restaurantId, d)[i];
            r.id == list[i].id && r.name == list[i].name && r.cuisineType == list[i].cuisineType
            && r.isActive == list[i].isActive
    ensures var r := ApplySchedule(list, restaurantId, d)[i];
            list[i].id != restaurantId ==> r == list[i]
    ensures var r := ApplySchedule(list, restaurantId, d)[i];
            list[i].id == restaurantId ==>
              r.openTime == d.openTime && r.closeTime == d.closeTime
              && r.isOpen == d.isOpen && r.scheduleNotes == d.scheduleNotes
  {
  }

  /** A draft as loaded (or edited from a loaded one) survives saving: the
      draft built again from the saved restaurant is that draft. */
  lemma SavedDraftReloads(r: Restaurant, d: ScheduleDraft)
    requires Complete(d) && d.openTime.value != "" && d.closeTime.value != ""
    ensures DraftFor(WithSchedule(r, d)) == d
  {
  }

  /** What the restaurant query gives back. */
  datatype RestaurantsReply = RestaurantsFailed(message: Option<string>) | RestaurantsLoaded(data: Option<seq<Restaurant>>)

  const LoadFailedMessage := "Failed to load restaurants"
  const SaveFailedMessage := "Failed to update schedule"

  /** The schedule tab's state. */
  class SchedulePanel {
    var restaurants: seq<Restaurant>
    var drafts: map<string, ScheduleDraft>
    var saving: map<string, bool>
    var selected: Option<string>
    var error: Option<string>

    constructor ()
      ensures restaurants == [] && drafts == map[] && saving == map[] && selected == None && error == None
    {
      restaurants := [];
      drafts := map[];
      saving := map[];
      selected := None;
      error := None;
    }

    /** `fetchRestaurants`: on a reply, the list (missing data is no
        restaurants), the auto-selection and the fresh drafts; on an error,
        only its message. */
    method FetchRestaurants(reply: RestaurantsReply)
      modifies this
      ensures saving == old(saving)
      ensures reply.RestaurantsFailed? ==>
                restaurants == old(restaurants) && drafts == old(drafts) && selected == old(selected)
                && error == Some(OrElse(reply.message, LoadFailedMessage))
      ensures reply.RestaurantsLoaded? ==>
                var list := if reply.data.Some? then reply.data.value else [];
                restaurants == list && selected == AutoSelect(old(selected), list)
                && drafts == DraftMap(list) && error == None
    {
      error := None;
      match reply {
        case RestaurantsFailed(m) =>
          error := Some(OrElse(m, LoadFailedMessage));
        case RestaurantsLoaded(data) =>
          var list := if data.Some? then data.value else [];
          restaurants := list;
          if !Truthy(selected) && |list| > 0 {
            selected := Some(list[0].id);
          }
          drafts := DraftMap(list);
      }
    }

    /** `handleScheduleChange`. */
    method HandleScheduleChange(restaurantId: string, edit: ScheduleEdit)
      modifies this
      ensures drafts == ChangeDraft(old(drafts), restaurantId, edit)
      ensures restaurants == old(restaurants) && saving == old(saving)
              && selected == old(selected) && error == old(error)
    {
      drafts := ChangeDraft(drafts, restaurantId, edit);
    }

    /** `saveSchedule`, given the update's error (whose message may be
        missing or empty), if any. Without a draft nothing happens; otherwise
        the saving flag ends false whatever the reply. */
    method SaveSchedule(restaurantId: string, updateError: Option<Option<string>>)
      modifies this
      ensures drafts == old(drafts) && selected == old(selected)
      ensures restaurantId !in old(drafts) ==>
                restaurants == old(restaurants) && saving == old(saving) && error == old(error)
      ensures restaurantId in old(drafts) ==> saving == old(saving)[restaurantId := false]
      ensures restaurantId in old(drafts) && updateError.None? ==>
                restaurants == ApplySchedule(old(restaurants), restaurantId, old(drafts)[restaurantId])
                && error == old(error)
      ensures restaurantId in old(drafts) && updateError.Some? ==>
                restaurants == old(restaurants) && error == Some(OrElse(updateError.value, SaveFailedMessage))
    {
      if restaurantId !in drafts {
        return;
      }
      var draft := drafts[restaurantId];
      saving := saving[restaurantId := true];
      if updateError.None? {
        restaurants := ApplySchedule(restaurants, restaurantId, draft);
      } else {
        error := Some(OrElse(updateError.value, SaveFailedMessage));
      }
      saving := saving[restaurantId := false];
    }
  }

  // ---------------------------------------------------------------------------
  // Menu drafts

  /** A `MenuDraft`: the price is text. */
  datatype MenuDraft = MenuDraft(
    name: string,
    description: string,
    price: string,
    category: string,
    imageUrl: string,
    isAvailable: bool,
    isVegetarian: bool)

  const EmptyMenuDraft := MenuDraft("", "", "", "", "", true, false)

  /** The fields of a menu write; `price` is `Number(draft.price)`, `None`
      for text that is not a price. */
  datatype MenuWrite = MenuWrite(
    name: string,
    description: string,
    priceCents: Option<nat>,
    category: string,
    imageUrl: string,
    isAvailable: bool,
    isVegetarian: bool)

  /** The payload `createMenuItem` and `updateMenuItem` send. */
  function WriteOf(d: MenuDraft): MenuWrite {
    MenuWrite(d.name, d.description, ParsePrice(d.price), d.category, d.imageUrl, d.isAvailable, d.isVegetarian)
  }

  /** The composer's gate: name, description, price and category non-empty. */
  predicate SubmitAccepted(d: MenuDraft) {
    d.name != "" && d.description != "" && d.price != "" && d.category != ""
  }

  /** The empty draft cannot be submitted as it is. */
  lemma EmptyDraftRefused()
    ensures !SubmitAccepted(EmptyMenuDraft)
  {
  }

  /** The draft the Edit button loads for an item. */
  function EditDraft(item: MenuItem): MenuDraft {
    MenuDraft(item.name, item.description, PriceText(item.priceCents), item.category,
              OrElse(item.imageUrl, ""), item.isAvailable, item.isVegetarian)
  }

  /** The draft the availability button sends. */
  function ToggleDraft(item: MenuItem): MenuDraft {
    MenuDraft(item.name, item.description, PriceText(item.priceCents), item.category,
              OrElse(item.imageUrl, ""), !item.isAvailable, item.isVegetarian)
  }

  /** The toggle writes every field of the item back as it was (the price
      survives its trip through text), except availability, which it
      negates; it is the Edit draft with only that field flipped. */
  lemma ToggleWritesNegation(item: MenuItem)
    ensures WriteOf(ToggleDraft(item)) ==
            MenuWrite(item.name, item.description, Some(item.priceCents), item.category,
                      OrElse(item.imageUrl, ""), !item.isAvailable, item.isVegetarian)
    ensures ToggleDraft(item) == EditDraft(item).(isAvailable := !item.isAvailable)
    ensures WriteOf(EditDraft(item)).priceCents == Some(item.priceCents)
  {
    PriceRoundTrip(item.priceCents);
  }

  /** The `MenuComposer` form. */
  class MenuComposer {
    var localDraft: MenuDraft
    /** Whether an `onCancel` callback was given. */
    const hasCancel: bool

    constructor (draft: MenuDraft, hasCancel: bool)
      ensures localDraft == draft && this.hasCancel == hasCancel
    {
      localDraft := draft;
      this.hasCancel := hasCancel;
    }

    /** `handleSubmit`: an incomplete draft is refused and kept; a complete
        one is handed to `onSubmit`, and the form empties only when there is
        no cancel callback. */
    method HandleSubmit() returns (submitted: Option<MenuDraft>)
      modifies this
      ensures submitted.Some? <==> SubmitAccepted(old(localDraft))
      ensures submitted.Some? ==> submitted.value == old(localDraft)
      ensures localDraft == if submitted.Some? && !hasCancel then EmptyMenuDraft else old(localDraft)
    {
      if localDraft.name == "" || localDraft.description == "" || localDraft.price == "" || localDraft.category == "" {
        return None;
      }
      submitted := Some(localDraft);
      if !hasCancel {
        localDraft := EmptyMenuDraft;
      }
    }
  }
}
