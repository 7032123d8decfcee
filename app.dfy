/** The storefront shell of src/App.tsx (`AppContent`): the current view,
    the selected restaurant, the two overlays, and which page renders. The
    view is kept as the string the header hands over, since
    `handleViewChange` casts any string to a view. */
module App {
  import opened Common
  import opened Records

  datatype Page = RestaurantListPage | DetailPage(restaurant: Restaurant) | CheckoutFormPage | OrdersPage | OwnerPages

  /** The one page the main area shows, if any. */
  function MainPage(currentView: string, selected: Option<Restaurant>, profile: Option<Profile>): (p: Option<Page>)
    ensures p == Some(RestaurantListPage) <==> currentView == "restaurants"
    ensures (p.Some? && p.value.DetailPage?) <==> currentView == "restaurant-detail" && selected.Some?
    ensures p.Some? && p.value.DetailPage? ==> p.value.restaurant == selected.value
    ensures p == Some(CheckoutFormPage) <==> currentView == "checkout"
    ensures p == Some(OrdersPage) <==> currentView == "orders" && profile.Some? && profile.value.role == "customer"
    ensures p == Some(OwnerPages) <==> currentView == "dashboard" && profile.Some? && profile.value.role == "restaurant_owner"
  {
    if currentView == "restaurants" then Some(RestaurantListPage)
    else if currentView == "restaurant-detail" && selected.Some? then Some(DetailPage(selected.value))
    else if currentView == "checkout" then Some(CheckoutFormPage)
    else if currentView == "orders" && profile.Some? && profile.value.role == "customer" then Some(OrdersPage)
    else if currentView == "dashboard" && profile.Some? && profile.value.role == "restaurant_owner" then Some(OwnerPages)
    else None
  }

  /** A view nobody's role fits, an unknown view, the owner's order view
      and a detail view without a selection all leave the main area empty. */
  lemma BlankMainArea(selected: Option<Restaurant>, profile: Option<Profile>, view: string)
    ensures MainPage("restaurant-detail", None, profile).None?
    ensures MainPage("order-management", selected, profile).None?
    ensures view !in ["restaurants", "restaurant-detail", "checkout", "orders", "dashboard"] ==>
              MainPage(view, selected, profile).None?
    ensures profile.None? ==> MainPage("orders", selected, profile).None? && MainPage("dashboard", selected, profile).None?
  {
  }

  datatype Screen = Spinner | Shell(main: Option<Page>, authModalOpen: bool, cartOpen: bool)

  class AppContent {
    var currentView: string
    var selectedRestaurant: Option<Restaurant>
    var showAuthModal: bool
    var showCart: bool

    constructor ()
      ensures currentView == "restaurants" && selectedRestaurant.None? && !showAuthModal && !showCart
    {
      currentView := "restaurants";
      selectedRestaurant := None;
      showAuthModal := false;
      showCart := false;
    }

    /** What renders: only the spinner while auth is loading. */
    function Render(loading: bool, profile: Option<Profile>): (s: Screen)
      reads this
      ensures loading <==> s == Spinner
      ensures !loading ==> s.main == MainPage(currentView, selectedRestaurant, profile)
                           && s.authModalOpen == showAuthModal && s.cartOpen == showCart
    {
      if loading then Spinner else Shell(MainPage(currentView, selectedRestaurant, profile), showAuthModal, showCart)
    }

    /** `handleRestaurantSelect`: the restaurant's page opens. */
    method SelectRestaurant(r: Restaurant)
      modifies this
      ensures currentView == "restaurant-detail" && selectedRestaurant == Some(r)
      ensures showAuthModal == old(showAuthModal) && showCart == old(showCart)
      ensures forall profile :: MainPage(currentView, selectedRestaurant, profile) == Some(DetailPage(r))
    {
      selectedRestaurant := Some(r);
      currentView := "restaurant-detail";
    }

    /** `handleBackToRestaurants`. */
    method BackToRestaurants()
      modifies this
      ensures currentView == "restaurants" && selectedRestaurant.None?
      ensures showAuthModal == old(showAuthModal) && showCart == old(showCart)
    {
      selectedRestaurant := None;
      currentView := "restaurants";
    }

    /** `handleCheckout`. */
    method Checkout()
      modifies this
      ensures currentView == "checkout"
      ensures selectedRestaurant == old(selectedRestaurant) && showAuthModal == old(showAuthModal) && showCart == old(showCart)
    {
      currentView := "checkout";
    }

    /** `handleCheckoutSuccess`: the order history follows. */
    method CheckoutSuccess()
      modifies this
      ensures currentView == "orders"
      ensures selectedRestaurant == old(selectedRestaurant) && showAuthModal == old(showAuthModal) && showCart == old(showCart)
    {
      currentView := "orders";
    }

    /** Checkout's back button only opens the cart; the view stays. */
    method CheckoutBack()
      modifies this
      ensures showCart
      ensures currentView == old(currentView) && selectedRestaurant == old(selectedRestaurant) && showAuthModal == old(showAuthModal)
    {
      showCart := true;
    }

    /** `handleViewChange`: any string becomes the view. */
    method ViewChange(view: string)
      modifies this
      ensures currentView == view
      ensures selectedRestaurant == old(selectedRestaurant) && showAuthModal == old(showAuthModal) && showCart == old(showCart)
    {
      currentView := view;
    }

    /** The header's and the overlays' open and close callbacks. */
    method SetAuthModal(open: bool)
      modifies this
      ensures showAuthModal == open
      ensures currentView == old(currentView) && selectedRestaurant == old(selectedRestaurant) && showCart == old(showCart)
    {
      showAuthModal := open;
    }

    method SetCart(open: bool)
      modifies this
      ensures showCart == open
      ensures currentView == old(currentView) && selectedRestaurant == old(selectedRestaurant) && showAuthModal == old(showAuthModal)
    {
      showCart := open;
    }
  }

  /** Going back from a restaurant's page shows the directory again. */
  method SelectThenBack(r: Restaurant, profile: Option<Profile>) returns (before: Screen, after: Screen)
    ensures before == Shell(Some(DetailPage(r)), false, false)
    ensures after == Shell(Some(RestaurantListPage), false, false)
  {
    var app := new AppContent();
    app.SelectRestaurant(r);
    before := app.Render(false, profile);
    app.BackToRestaurants();
    after := app.Render(false, profile);
  }
}
