/**
 * The browser's key-value store as the shop uses it: five keys
 * (`dpizza_menu`, `dpizza_history`, `dpizza_coupons`, `dpizza_profile`,
 * `last_order_id`), the records kept under them, the fail-soft read
 * `safeParse`, the built-in default menu and the one-time menu seeding.
 * Both the storefront and the admin console read and write this store.
 */
module Store {
  import opened Js

  datatype Review = Review(user: string, comment: string)

  /** A catalog entry. `rating` is display-only. */
  datatype MenuItem = MenuItem(
    id: int, name: string, category: string, price: int, rating: real,
    desc: string, images: seq<string>, reviews: seq<Review>)

  /** A cart line: a copy of the menu item taken when it was added, plus a quantity. */
  datatype CartLine = CartLine(item: MenuItem, quantity: int)

  datatype Coupon = Coupon(code: string, discount: int, active: bool)

  /** The contact details saved after every checkout. */
  datatype Profile = Profile(name: string, phone: string, address: string, landmark: string)

  /** A placed order. `total` is optional because the dashboard and the
      customer list also read orders that carry no total. */
  datatype Order = Order(
    id: string, name: string, phone: string, address: string, landmark: string,
    payment: string, items: seq<CartLine>, total: Option<int>, status: string,
    timestamp: string)

  /** `i => i.id === id` over the menu. */
  function MenuIdIs(id: int): MenuItem -> bool
  {
    (i: MenuItem) => i.id == id
  }

  /** `o => o.id === id` over the order history. */
  function OrderIdIs(id: string): Order -> bool
  {
    (o: Order) => o.id == id
  }

  /** What one JSON-encoded key holds: nothing, the empty string, text
      that does not parse, or the encoding of a value. */
  datatype Slot<T> = Missing | Empty | Corrupt | Holds(value: T)

  /** `safeParse(key, fallback)`: the stored value, or `fallback` when the
      key is missing, empty or unparsable. */
  function SafeParse<T>(slot: Slot<T>, fallback: T): T
  {
    if slot.Holds? then slot.value else fallback
  }

  /** Reading back what was written gives it back, whatever the fallback. */
  lemma {:induction false} ReadAfterWrite<T>(v: T, fallback: T)
    ensures SafeParse(Holds(v), fallback) == v
  {
  }

  /** A key that is missing, empty or unparsable reads as the caller's fallback. */
  lemma {:induction false} ReadFallback<T>(slot: Slot<T>, fallback: T)
    requires !slot.Holds?
    ensures SafeParse(slot, fallback) == fallback
  {
  }

  /** `!localStorage.getItem(key)`: true for a missing key and for the empty string. */
  predicate Falsy<T>(slot: Slot<T>)
  {
    slot.Missing? || slot.Empty?
  }

  /** The single built-in menu item. */
  const DefaultMenu: seq<MenuItem> := [
    MenuItem(1, "Margherita", "veg", 299, 4.8,
      "Classic delight with 100% real mozzarella cheese.",
      ["https://images.unsplash.com/photo-1574071318508-1cdbad80ad38?auto=format&fit=crop&w=500&q=80"],
      [Review("Deepak", "Best margherita in town!"), Review("Suman", "Very cheesy.")])
  ]

  /** The menu key after seeding: the default menu is written only when the
      key is missing or empty. */
  function Seeded(menu: Slot<seq<MenuItem>>): (r: Slot<seq<MenuItem>>)
    ensures Falsy(menu) ==> r == Holds(DefaultMenu)
    ensures !Falsy(menu) ==> r == menu
  {
    if Falsy(menu) then Holds(DefaultMenu) else menu
  }

  /** Seeding never overwrites a stored menu, not even an empty one, and
      seeding twice is seeding once. */
  lemma {:induction false} SeedingIsOneTime(menu: Slot<seq<MenuItem>>)
    ensures menu.Holds? ==> Seeded(menu) == menu
    ensures Seeded(menu) == Holds([]) <==> menu == Holds([])
    ensures Seeded(Seeded(menu)) == Seeded(menu)
    ensures !Falsy(Seeded(menu))
  {
  }

  /** The store: one field per key. `last_order_id` is written as a raw
      string, not JSON, so it is either absent or a string. */
  class KeyValueStore {
    var menu: Slot<seq<MenuItem>>
    var history: Slot<seq<Order>>
    var coupons: Slot<seq<Coupon>>
    var profile: Slot<Profile>
    var lastOrderId: Option<string>

    /** A store in which no key has been written. */
    constructor ()
      ensures menu == Missing && history == Missing && coupons == Missing
      ensures profile == Missing && lastOrderId == None
    {
      menu, history, coupons, profile := Missing, Missing, Missing, Missing;
      lastOrderId := None;
    }

    /** `initMenu` / the first half of `loadMenuFromStorage`: write the
        default menu when the menu key is missing or empty. */
    method SeedMenu()
      modifies this`menu
      ensures menu == Seeded(old(menu))
      ensures Falsy(old(menu)) ==> menu == Holds(DefaultMenu)
      ensures !Falsy(old(menu)) ==> menu == old(menu)
    {
      if Falsy(menu) {
        menu := Holds(DefaultMenu);
      }
    }
  }
}
