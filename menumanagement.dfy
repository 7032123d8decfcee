/** The menu editor of src/pages/Admin/MenuManagement.tsx: the form, the
    payload it submits, the choice between update and insert, loading an
    item for editing, the availability toggle and the grouping of the menu
    by category. Backend replies are parameters. */
module MenuManagement {
  import opened Common
  import opened Records

  /** The form fields; `imageUrl` is `None` after loading an item whose
      image column is null. */
  datatype FormData = FormData(
    name: string,
    description: string,
    price: string,
    imageUrl: Option<string>,
    category: string,
    isVegetarian: bool)

  /** The initial form, which `resetForm` restores. */
  const BlankForm := FormData("", "", "", Some(""), "morning", false)

  /** The row written by a submit; `priceCents` is the parsed price (see
      `Common.ParsePrice`). */
  datatype MenuPayload = MenuPayload(
    name: string,
    description: string,
    priceCents: Option<nat>,
    imageUrl: Option<string>,
    category: string,
    isVegetarian: bool,
    isAvailable: bool)

  /** The backend call a submit makes. */
  datatype MenuWrite = UpdateRow(id: string, payload: MenuPayload) | InsertRow(payload: MenuPayload)

  /** The payload of `handleSubmit`: the form's fields, always available. */
  function Payload(f: FormData): (p: MenuPayload)
    ensures p.isAvailable
  {
    MenuPayload(f.name, f.description, ParsePrice(f.price), f.imageUrl, f.category, f.isVegetarian, true)
  }

  /** An update of the row being edited when `editingId` is set (and not
      empty), an insert otherwise. */
  function WriteFor(editingId: Option<string>, f: FormData): (w: MenuWrite)
    ensures w.UpdateRow? <==> Truthy(editingId)
    ensures w.UpdateRow? ==> w.id == editingId.value
    ensures w.payload == Payload(f)
  {
    if Truthy(editingId) then UpdateRow(editingId.value, Payload(f)) else InsertRow(Payload(f))
  }

  /** The form `handleEdit` loads for an item. */
  function EditForm(item: MenuItem): FormData {
    FormData(item.name, item.description, PriceText(item.priceCents), item.imageUrl, item.category, item.isVegetarian)
  }

  /** Editing an item and submitting without changes writes its own fields
      back to its own row, and makes it available even when it was hidden. */
  lemma EditThenSubmit(item: MenuItem)
    ensures WriteFor(Some(item.id), EditForm(item)) ==
            (if item.id == "" then InsertRow(Payload(EditForm(item))) else UpdateRow(item.id, Payload(EditForm(item))))
    ensures Payload(EditForm(item)) ==
            MenuPayload(item.name, item.description, Some(item.priceCents), item.imageUrl,
                        item.category, item.isVegetarian, true)
  {
    PriceRoundTrip(item.priceCents);
  }

  // ---------------------------------------------------------------------------
  // Grouping by category

  datatype Groups = Groups(morning: seq<MenuItem>, afternoon: seq<MenuItem>, dinner: seq<MenuItem>)

  function InCategory(c: string): MenuItem -> bool {
    (item: MenuItem) => item.category == c
  }

  function HasMenuCategory(): MenuItem -> bool {
    (item: MenuItem) => item.category in MenuCategories
  }

  /** `groupedItems`. */
  function GroupedItems(items: seq<MenuItem>): Groups {
    Groups(Filter(items, InCategory("morning")), Filter(items, InCategory("afternoon")),
           Filter(items, InCategory("dinner")))
  }

  /** Each group holds exactly the items of its category, in menu order. */
  lemma GroupedSpec(items: seq<MenuItem>, x: MenuItem)
    ensures x in GroupedItems(items).morning <==> x in items && x.category == "morning"
    ensures x in GroupedItems(items).afternoon <==> x in items && x.category == "afternoon"
    ensures x in GroupedItems(items).dinner <==> x in items && x.category == "dinner"
    ensures IsSubsequence(GroupedItems(items).morning, items)
            && IsSubsequence(GroupedItems(items).afternoon, items)
            && IsSubsequence(GroupedItems(items).dinner, items)
  {
    FilterMembers(items, InCategory("morning"), x);
    FilterMembers(items, InCategory("afternoon"), x);
    FilterMembers(items, InCategory("dinner"), x);
    FilterIsSubsequence(items, InCategory("morning"));
    FilterIsSubsequence(items, InCategory("afternoon"));
    FilterIsSubsequence(items, InCategory("dinner"));
  }

  /** The groups together hold one entry per item with one of the three
      categories, so an item with any other category is in no group. */
  lemma {:induction false} GroupSizes(items: seq<MenuItem>)
    ensures var g := GroupedItems(items);
            |g.morning| + |g.afternoon| + |g.dinner| == Count(items, HasMenuCategory())
  {
    if items != [] {
      GroupSizes(items[1..]);
    }
  }

  /** What the menu query gives back: an error, or the rows (possibly none). */
  datatype MenuReply = MenuFailed | MenuLoaded(data: Option<seq<MenuItem>>)

  const FetchFailedMessage := "Failed to fetch menu items"

  /** The menu editor's state. */
  class MenuManager {
    var items: seq<MenuItem>
    var loading: bool
    var showForm: bool
    var editingId: Option<string>
    var form: FormData
    /** How many re-fetches of the menu have been started. */
    var refetches: nat

    constructor ()
      ensures items == [] && loading && !showForm && editingId == None && form == BlankForm && refetches == 0
    {
      items := [];
      loading := true;
      showForm := false;
      editingId := None;
      form := BlankForm;
      refetches := 0;
    }

    /** `fetchMenuItems`: the rows replace the menu (missing data is an
        empty menu); a failure keeps the menu and notifies; loading ends
        false either way. */
    method FetchMenuItems(reply: MenuReply) returns (notice: Option<string>)
      modifies this
      ensures !loading
      ensures reply.MenuLoaded? ==> items == (if reply.data.Some? then reply.data.value else []) && notice == None
      ensures reply.MenuFailed? ==> items == old(items) && notice == Some(FetchFailedMessage)
      ensures form == old(form) && editingId == old(editingId) && showForm == old(showForm) && refetches == old(refetches)
    {
      notice := None;
      match reply {
        case MenuFailed =>
          notice := Some(FetchFailedMessage);
        case MenuLoaded(data) =>
          items := if data.Some? then data.value else [];
      }
      loading := false;
    }

    /** `handleDelete`: nothing happens unless the user confirms; a delete
        that succeeds re-fetches the menu. */
    method HandleDelete(confirmed: bool, deleteError: Option<Option<string>>) returns (deleted: bool, notice: Option<string>)
      modifies this
      ensures deleted <==> confirmed
      ensures !confirmed ==> notice == None && refetches == old(refetches)
      ensures confirmed && deleteError.None? ==>
                notice == Some("Menu item deleted successfully") && refetches == old(refetches) + 1
      ensures confirmed && deleteError.Some? ==>
                notice == Some(OrElse(deleteError.value, "Failed to delete item")) && refetches == old(refetches)
      ensures form == old(form) && editingId == old(editingId) && showForm == old(showForm)
              && items == old(items) && loading == old(loading)
    {
      deleted, notice := confirmed, None;
      if !confirmed {
        return;
      }
      if deleteError.Some? {
        notice := Some(OrElse(deleteError.value, "Failed to delete item"));
        return;
      }
      notice := Some("Menu item deleted successfully");
      refetches := refetches + 1;
    }

    /** `resetForm`. */
    method ResetForm()
      modifies this
      ensures form == BlankForm && editingId == None && !showForm
      ensures items == old(items) && loading == old(loading) && refetches == old(refetches)
    {
      form := BlankForm;
      editingId := None;
      showForm := false;
    }

    /** `handleEdit`. */
    method HandleEdit(item: MenuItem)
      modifies this
      ensures form == EditForm(item) && editingId == Some(item.id) && showForm
      ensures items == old(items) && loading == old(loading) && refetches == old(refetches)
    {
      form := EditForm(item);
      editingId := Some(item.id);
      showForm := true;
    }

    /** `handleSubmit`, given the write's error (whose message may be
        missing or empty), if any. Only a successful write resets the form
        and re-fetches; loading ends false. */
    method HandleSubmit(writeError: Option<Option<string>>) returns (write: MenuWrite, notice: string)
      modifies this
      ensures write == WriteFor(old(editingId), old(form))
      ensures !loading && items == old(items)
      ensures writeError.None? ==>
                form == BlankForm && editingId == None && !showForm && refetches == old(refetches) + 1
                && notice == (if write.UpdateRow? then "Menu item updated successfully" else "Menu item added successfully")
      ensures writeError.Some? ==>
                form == old(form) && editingId == old(editingId) && showForm == old(showForm)
                && refetches == old(refetches) && notice == OrElse(writeError.value, "Operation failed")
    {
      loading := true;
      var data := Payload(form);
      if Truthy(editingId) {
        write := UpdateRow(editingId.value, data);
      } else {
        write := InsertRow(data);
      }
      if writeError.Some? {
        notice := OrElse(writeError.value, "Operation failed");
        loading := false;
        return;
      }
      notice := if write.UpdateRow? then "Menu item updated successfully" else "Menu item added successfully";
      ResetForm();
      refetches := refetches + 1;
      loading := false;
    }

    /** `toggleAvailability`: writes the negation of the shown status and
        re-fetches only on success. */
    method ToggleAvailability(currentStatus: bool, writeError: Option<Option<string>>)
      returns (written: bool, notice: string)
      modifies this
      ensures written == !currentStatus
      ensures form == old(form) && editingId == old(editingId) && showForm == old(showForm)
              && items == old(items) && loading == old(loading)
      ensures refetches == old(refetches) + (if writeError.None? then 1 else 0)
      ensures writeError.None? ==> notice == (if written then "Item enabled" else "Item disabled")
      ensures writeError.Some? ==> notice == OrElse(writeError.value, "Failed to update status")
    {
      written := !currentStatus;
      if writeError.Some? {
        notice := OrElse(writeError.value, "Failed to update status");
        return;
      }
      notice := if written then "Item enabled" else "Item disabled";
      refetches := refetches + 1;
    }
  }
}
