/** The rows the storefront reads from and writes to the hosted backend
    (src/lib/supabase.ts), with money as whole cents. Roles, categories and
    order statuses stay strings: the pages compare raw strings from the
    database, so values outside the declared unions can reach them. */
module Records {
  import opened Common

  /** A menu row. `restaurantId` is the `restaurant_id` column the pages
      filter on; `imageUrl` is `None` when the column is null. */
  datatype MenuItem = MenuItem(
    id: string,
    restaurantId: string,
    name: string,
    description: string,
    priceCents: nat,
    imageUrl: Option<string>,
    category: string,
    isAvailable: bool,
    isVegetarian: bool)

  /** An application profile row. */
  datatype Profile = Profile(id: string, email: string, fullName: string, phone: Option<string>, role: string)

  /** The identity provider's user record; `role` is the optional role claim
      the admin route guard reads. */
  datatype User = User(id: string, email: string, role: Option<string>)

  /** An order row. */
  datatype Order = Order(
    id: string,
    customerId: Option<string>,
    restaurantId: string,
    status: string,
    totalCents: int,
    isRead: bool)

  /** A restaurant row. The four schedule columns are `None` when null (or,
      after a partial schedule draft was saved, undefined). */
  datatype Restaurant = Restaurant(
    id: string,
    name: string,
    cuisineType: string,
    isActive: bool,
    openTime: Option<string>,
    closeTime: Option<string>,
    isOpen: Option<bool>,
    scheduleNotes: Option<string>)

  /** The `Order.status` union. */
  const OrderStatuses: seq<string> := ["pending", "confirmed", "preparing", "ready", "delivered", "cancelled"]

  /** The `MenuItem.category` union. */
  const MenuCategories: seq<string> := ["morning", "afternoon", "dinner"]
}
