/** Order placement of src/pages/Checkout.tsx: the guards, the order row,
    the order items built from the cart lines, and clearing the cart only
    after both writes succeed. The two backend replies are parameters. */
module Checkout {
  import opened Common
  import opened Records
  import opened CartEngine

  /** The 2.99 delivery fee, in cents. */
  const DeliveryFeeCents := 299

  const GuestCheckoutMessage := "Guest checkout is not available. Please create an account to place your delivery."
  const UnableMessage := "Unable to place order. Please try again."
  const FailedMessage := "Failed to place order. Please try again."

  /** The three text fields of the checkout form. */
  datatype OrderForm = OrderForm(deliveryAddress: string, phone: string, specialInstructions: string)

  /** The `orders` row written. */
  datatype OrderRow = OrderRow(
    customerId: string,
    restaurantId: string,
    status: string,
    totalCents: int,
    deliveryAddress: string,
    customerPhone: string,
    specialInstructions: string)

  /** One `order_items` row. */
  datatype OrderItemRow = OrderItemRow(orderId: string, menuItemId: string, quantity: int, priceCents: int, itemName: string)

  /** The reply of the order insert: an error (whose message may be missing
      or empty), or the new order's id. */
  datatype OrderReply = OrderFailed(message: Option<string>) | OrderCreated(orderId: string)

  /** What a submit did: the rows it wrote, the error it shows, and whether
      it cleared the cart and reported success. */
  datatype Placement = Placement(order: Option<OrderRow>, items: Option<seq<OrderItemRow>>, error: string, succeeded: bool)

  /** `total = subtotal + deliveryFee`, in cents. */
  function OrderTotal(lines: seq<CartLine>): int {
    Total(lines) + DeliveryFeeCents
  }

  /** `cart.map(item => ({ order_id, menu_item_id, quantity, price, item_name }))`. */
  function OrderItems(orderId: string, lines: seq<CartLine>): (r: seq<OrderItemRow>)
    ensures |r| == |lines|
    ensures forall i :: 0 <= i < |lines| ==>
              r[i] == OrderItemRow(orderId, lines[i].item.id, lines[i].quantity, lines[i].item.priceCents, lines[i].item.name)
  {
    if lines == [] then []
    else [OrderItemRow(orderId, lines[0].item.id, lines[0].quantity, lines[0].item.priceCents, lines[0].item.name)]
         + OrderItems(orderId, lines[1..])
  }

  /** The amount the item rows add up to. */
  function ItemsSubtotal(items: seq<OrderItemRow>): int {
    if items == [] then 0 else items[0].priceCents * items[0].quantity + ItemsSubtotal(items[1..])
  }

  predicate ProfileIsGuest(profile: Option<Profile>) {
    profile.Some? && profile.value.role == "guest"
  }

  /** `handlePlaceOrder`, given the cart, the signed-in user and profile, the
      form, the order insert's reply and the item insert's error, if any. */
  function PlaceOrderFlow(s: CartState, user: Option<User>, profile: Option<Profile>, form: OrderForm,
                          orderReply: OrderReply, itemsError: Option<Option<string>>): Placement
  {
    if ProfileIsGuest(profile) then Placement(None, None, GuestCheckoutMessage, false)
    else if user.None? || !Truthy(s.restaurantId) then Placement(None, None, UnableMessage, false)
    else
      var row := OrderRow(user.value.id, s.restaurantId.value, "pending", OrderTotal(s.lines),
                          form.deliveryAddress, form.phone, form.specialInstructions);
      match orderReply
      case OrderFailed(m) => Placement(Some(row), None, OrElse(m, FailedMessage), false)
      case OrderCreated(orderId) =>
        var items := OrderItems(orderId, s.lines);
        if itemsError.Some? then Placement(Some(row), Some(items), OrElse(itemsError.value, FailedMessage), false)
        else Placement(Some(row), Some(items), "", true)
  }

  // ---------------------------------------------------------------------------
  // Properties

  /** A guest, a missing user or a cart without a restaurant writes nothing
      and shows an error. */
  lemma PlaceOrderGuards(s: CartState, user: Option<User>, profile: Option<Profile>, form: OrderForm,
                         orderReply: OrderReply, itemsError: Option<Option<string>>)
    ensures ProfileIsGuest(profile) ==>
              PlaceOrderFlow(s, user, profile, form, orderReply, itemsError) == Placement(None, None, GuestCheckoutMessage, false)
    ensures !ProfileIsGuest(profile) && (user.None? || !Truthy(s.restaurantId)) ==>
              PlaceOrderFlow(s, user, profile, form, orderReply, itemsError) == Placement(None, None, UnableMessage, false)
    ensures var p := PlaceOrderFlow(s, user, profile, form, orderReply, itemsError);
            p.order.None? ==> p.items.None? && !p.succeeded && p.error != ""
  {
  }

  /** A valid empty cart is bound to no restaurant, so it never places an order. */
  lemma EmptyCartPlacesNothing(s: CartState, user: Option<User>, profile: Option<Profile>, form: OrderForm,
                               orderReply: OrderReply, itemsError: Option<Option<string>>)
    requires ValidCart(s) && s.lines == []
    ensures PlaceOrderFlow(s, user, profile, form, orderReply, itemsError).order.None?
  {
  }

  /** Any written order is pending, carries the cart total plus the fee, the
      user's id and the cart's restaurant; item rows are written only after
      the order row, one per cart line, for the new order; success means both
      writes went through and leaves no error. */
  lemma PlaceOrderWrites(s: CartState, user: Option<User>, profile: Option<Profile>, form: OrderForm,
                         orderReply: OrderReply, itemsError: Option<Option<string>>)
    ensures var p := PlaceOrderFlow(s, user, profile, form, orderReply, itemsError);
            p.order.Some? ==>
              !ProfileIsGuest(profile) && user.Some? && Truthy(s.restaurantId)
              && p.order.value == OrderRow(user.value.id, s.restaurantId.value, "pending", Total(s.lines) + 299,
                                           form.deliveryAddress, form.phone, form.specialInstructions)
    ensures var p := PlaceOrderFlow(s, user, profile, form, orderReply, itemsError);
            p.items.Some? ==>
              p.order.Some? && orderReply.OrderCreated? && p.items.value == OrderItems(orderReply.orderId, s.lines)
    ensures var p := PlaceOrderFlow(s, user, profile, form, orderReply, itemsError);
            p.succeeded <==> p.order.Some? && orderReply.OrderCreated? && itemsError.None?
    ensures var p := PlaceOrderFlow(s, user, profile, form, orderReply, itemsError);
            (p.succeeded ==> p.error == "") && (!p.succeeded ==> p.error != "")
  {
  }

  /** The item rows add up to the cart total, so the order's amount is the
      items' subtotal plus the delivery fee. */
  lemma {:induction false} ItemsMatchCartTotal(orderId: string, lines: seq<CartLine>)
    ensures ItemsSubtotal(OrderItems(orderId, lines)) == Total(lines)
    ensures OrderTotal(lines) == ItemsSubtotal(OrderItems(orderId, lines)) + DeliveryFeeCents
  {
    if lines != [] {
      ItemsMatchCartTotal(orderId, lines[1..]);
      assert OrderItems(orderId, lines)[1..] == OrderItems(orderId, lines[1..]);
    }
  }

  // ---------------------------------------------------------------------------
  // The page

  class CheckoutPage {
    var loading: bool
    var error: string
    var form: OrderForm

    constructor ()
      ensures !loading && error == "" && form == OrderForm("", "", "")
    {
      loading := false;
      error := "";
      form := OrderForm("", "", "");
    }

    /** Submitting the form. The cart is cleared, and success reported,
        only when both writes succeed; otherwise it is left untouched. */
    method PlaceOrder(cart: Cart, user: Option<User>, profile: Option<Profile>,
                      orderReply: OrderReply, itemsError: Option<Option<string>>) returns (p: Placement)
      requires cart.Valid()
      modifies this, cart
      ensures p == PlaceOrderFlow(old(cart.State()), user, profile, old(form), orderReply, itemsError)
      ensures !loading && error == p.error && form == old(form)
      ensures p.succeeded ==> cart.State() == InitialCart
      ensures !p.succeeded ==> cart.State() == old(cart.State()) && cart.origins == old(cart.origins)
      ensures cart.Valid()
    {
      error := "";
      loading := true;
      if profile.Some? && profile.value.role == "guest" {
        error := GuestCheckoutMessage;
        loading := false;
        return Placement(None, None, GuestCheckoutMessage, false);
      }
      if user.None? || !Truthy(cart.restaurantId) {
        error := UnableMessage;
        loading := false;
        return Placement(None, None, UnableMessage, false);
      }
      var row := OrderRow(user.value.id, cart.restaurantId.value, "pending", OrderTotal(cart.lines),
                          form.deliveryAddress, form.phone, form.specialInstructions);
      if orderReply.OrderFailed? {
        error := OrElse(orderReply.message, FailedMessage);
        loading := false;
        return Placement(Some(row), None, error, false);
      }
      var items := OrderItems(orderReply.orderId, cart.lines);
      if itemsError.Some? {
        error := OrElse(itemsError.value, FailedMessage);
        loading := false;
        return Placement(Some(row), Some(items), error, false);
      }
      cart.ClearCart();
      loading := false;
      return Placement(Some(row), Some(items), "", true);
    }
  }
}
