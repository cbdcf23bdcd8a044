/**
 * The customer-facing page: the category filter, the in-memory cart and
 * applied coupon of one browser tab, checkout, the active-order banner and
 * the order-tracking steps. The tab's global variables are the fields of
 * a `Session`; the store is passed to the operations that read or write it.
 */
module Storefront {
  import opened Js
  import opened Store
  import opened Pricing

  // ---------------------------------------------------------------- catalog

  function InCategory(category: string): MenuItem -> bool
  {
    (i: MenuItem) => i.category == category
  }

  /** `renderMenu(category)`'s selection: "all" shows the whole menu,
      any other value the items of that category, in menu order. */
  function ByCategory(menu: seq<MenuItem>, category: string): (r: seq<MenuItem>)
    ensures category == "all" ==> r == menu
    ensures category != "all" ==> forall x :: x in r <==> x in menu && x.category == category
    ensures category != "all" ==>
      forall x :: multiset(r)[x] == if x.category == category then multiset(menu)[x] else 0
  {
    if category == "all" then menu
    else
      FilterMembers(menu, InCategory(category));
      FilterCountsAll(menu, InCategory(category));
      Filter(menu, InCategory(category))
  }

  // ------------------------------------------------------------------- cart

  function LineIdIs(id: int): CartLine -> bool
  {
    (l: CartLine) => l.item.id == id
  }

  function LineIdIsNot(id: int): CartLine -> bool
  {
    (l: CartLine) => l.item.id != id
  }

  /** No two lines of the cart are for the same menu item id. */
  predicate UniqueIds(cart: seq<CartLine>)
  {
    forall i, j :: 0 <= i < j < |cart| ==> cart[i].item.id != cart[j].item.id
  }

  /** A line whose quantity reaches zero is removed, never kept. */
  predicate PositiveQuantities(cart: seq<CartLine>)
  {
    forall i :: 0 <= i < |cart| ==> cart[i].quantity >= 1
  }

  predicate WellFormedCart(cart: seq<CartLine>)
  {
    UniqueIds(cart) && PositiveQuantities(cart)
  }

  /** The cart after `addToCart(id)`: nothing for an id missing from the
      menu, one more of an item already in the cart, otherwise a copy of
      the (first) menu item with that id at quantity 1 at the end. */
  function WithAdded(cart: seq<CartLine>, menu: seq<MenuItem>, id: int): seq<CartLine>
  {
    match FindIndex(menu, MenuIdIs(id))
    case None => cart
    case Some(m) =>
      match FindIndex(cart, LineIdIs(id))
      case Some(k) => cart[k := cart[k].(quantity := cart[k].quantity + 1)]
      case None => cart + [CartLine(menu[m], 1)]
  }

  /** The cart after `updateQty(id, change)`: the line's quantity moves by
      `change`, and the line goes when that leaves it at zero or below. */
  function WithQtyChanged(cart: seq<CartLine>, id: int, change: int): seq<CartLine>
  {
    match FindIndex(cart, LineIdIs(id))
    case None => cart
    case Some(k) =>
      var q := cart[k].quantity + change;
      if q <= 0 then Filter(cart, LineIdIsNot(id)) else cart[k := cart[k].(quantity := q)]
  }

  /** In a cart without duplicate ids, `cart.find(i => i.id === id)` is the line at `k`. */
  lemma {:induction false} LineFound(cart: seq<CartLine>, id: int, k: nat)
    requires UniqueIds(cart)
    requires k < |cart| && cart[k].item.id == id
    ensures FindIndex(cart, LineIdIs(id)) == Some(k)
  {
    forall j | 0 <= j < k ensures !LineIdIs(id)(cart[j]) {
      assert cart[j].item.id != cart[k].item.id;
    }
    FindIndexIsFirst(cart, LineIdIs(id), k);
  }

  lemma {:induction false} LineNotFound(cart: seq<CartLine>, id: int)
    requires forall j :: 0 <= j < |cart| ==> cart[j].item.id != id
    ensures FindIndex(cart, LineIdIs(id)) == None
  {
    forall j | 0 <= j < |cart| ensures !LineIdIs(id)(cart[j]) {
    }
  }

  /** Removing one line keeps the cart well formed. */
  lemma {:induction false} RemoveKeepsWellFormed(cart: seq<CartLine>, k: nat)
    requires WellFormedCart(cart) && k < |cart|
    ensures WellFormedCart(cart[..k] + cart[k + 1..])
  {
    var r := cart[..k] + cart[k + 1..];
    forall i | 0 <= i < |r| ensures r[i] == cart[if i < k then i else i + 1] {
    }
  }

  lemma {:induction false} AddUnknownIsNoOp(cart: seq<CartLine>, menu: seq<MenuItem>, id: int)
    requires forall i :: 0 <= i < |menu| ==> menu[i].id != id
    ensures WithAdded(cart, menu, id) == cart
  {
    forall j | 0 <= j < |menu| ensures !MenuIdIs(id)(menu[j]) {
    }
  }

  /** Adding an item already in the cart raises that line's quantity by one
      and touches no other line; count and subtotal grow by one unit of the
      line's copied price. */
  lemma {:induction false} AddExistingIncrements(cart: seq<CartLine>, menu: seq<MenuItem>, id: int, m: nat, k: nat)
    requires UniqueIds(cart)
    requires m < |menu| && menu[m].id == id
    requires k < |cart| && cart[k].item.id == id
    ensures var r := WithAdded(cart, menu, id);
      && r == cart[k := cart[k].(quantity := cart[k].quantity + 1)]
      && ItemCount(r) == ItemCount(cart) + 1
      && Subtotal(r) == Subtotal(cart) + cart[k].item.price
  {
    var line := cart[k].(quantity := cart[k].quantity + 1);
    assert MenuIdIs(id)(menu[m]);
    assert FindIndex(menu, MenuIdIs(id)).Some?;
    LineFound(cart, id, k);
    assert WithAdded(cart, menu, id) == cart[k := line];
    SumsAfterReplace(cart, k, line);
    PriceTimesSum(cart[k].item.price, cart[k].quantity, 1);
  }

  /** Adding a menu item not yet in the cart appends exactly one line: a
      copy of the first menu item with that id, at quantity 1. */
  lemma {:induction false} AddNewAppends(cart: seq<CartLine>, menu: seq<MenuItem>, id: int, m: nat)
    requires m < |menu| && menu[m].id == id
    requires forall j :: 0 <= j < m ==> menu[j].id != id
    requires forall j :: 0 <= j < |cart| ==> cart[j].item.id != id
    ensures WithAdded(cart, menu, id) == cart + [CartLine(menu[m], 1)]
    ensures ItemCount(WithAdded(cart, menu, id)) == ItemCount(cart) + 1
    ensures Subtotal(WithAdded(cart, menu, id)) == Subtotal(cart) + menu[m].price
  {
    FindIndexIsFirst(menu, MenuIdIs(id), m);
    LineNotFound(cart, id);
    ItemCountAppend(cart, [CartLine(menu[m], 1)]);
    SubtotalAppend(cart, [CartLine(menu[m], 1)]);
  }

  /** Whatever is added, no two lines share an id and every quantity stays positive. */
  lemma {:induction false} AddKeepsWellFormed(cart: seq<CartLine>, menu: seq<MenuItem>, id: int)
    requires WellFormedCart(cart)
    ensures WellFormedCart(WithAdded(cart, menu, id))
  {
    match FindIndex(menu, MenuIdIs(id))
    case None =>
    case Some(m) =>
      match FindIndex(cart, LineIdIs(id))
      case Some(k) =>
      case None =>
        forall j | 0 <= j < |cart| ensures cart[j].item.id != id {
          assert !LineIdIs(id)(cart[j]);
        }
  }

  lemma {:induction false} QtyUnknownIsNoOp(cart: seq<CartLine>, id: int, change: int)
    requires forall i :: 0 <= i < |cart| ==> cart[i].item.id != id
    ensures WithQtyChanged(cart, id, change) == cart
  {
    LineNotFound(cart, id);
  }

  /** A change that leaves the line at `k` a positive quantity changes only
      that line, and the count and subtotal move by `change` units. */
  lemma {:induction false} QtyChangeUpdates(cart: seq<CartLine>, id: int, change: int, k: nat)
    requires UniqueIds(cart)
    requires k < |cart| && cart[k].item.id == id
    requires cart[k].quantity + change > 0
    ensures var r := WithQtyChanged(cart, id, change);
      && r == cart[k := cart[k].(quantity := cart[k].quantity + change)]
      && ItemCount(r) == ItemCount(cart) + change
      && Subtotal(r) == Subtotal(cart) + cart[k].item.price * change
  {
    LineFound(cart, id, k);
    var line := cart[k].(quantity := cart[k].quantity + change);
    assert WithQtyChanged(cart, id, change) == cart[k := line];
    SumsAfterReplace(cart, k, line);
    PriceTimesSum(cart[k].item.price, cart[k].quantity, change);
  }

  lemma {:induction false} PriceTimesSum(price: int, a: int, b: int)
    ensures price * (a + b) == price * a + price * b
  {
  }

  /** A change that takes the line at `k` to zero or below removes that line
      and no other, and takes all of it off the count and the subtotal. */
  lemma {:induction false} QtyChangeRemoves(cart: seq<CartLine>, id: int, change: int, k: nat)
    requires UniqueIds(cart)
    requires k < |cart| && cart[k].item.id == id
    requires cart[k].quantity + change <= 0
    ensures var r := WithQtyChanged(cart, id, change);
      && r == cart[..k] + cart[k + 1..]
      && ItemCount(r) == ItemCount(cart) - cart[k].quantity
      && Subtotal(r) == Subtotal(cart) - cart[k].item.price * cart[k].quantity
  {
    LineFound(cart, id, k);
    OthersKept(cart, id, k);
    FilterDropsOne(cart, LineIdIsNot(id), k);
    SumsAfterRemove(cart, k);
  }

  /** Every line other than the one at `k` has another id. */
  lemma {:induction false} OthersKept(cart: seq<CartLine>, id: int, k: nat)
    requires UniqueIds(cart)
    requires k < |cart| && cart[k].item.id == id
    ensures forall i :: 0 <= i < |cart| && i != k ==> LineIdIsNot(id)(cart[i])
  {
    forall i | 0 <= i < |cart| && i != k ensures LineIdIsNot(id)(cart[i]) {
      if i < k {
        assert cart[i].item.id != cart[k].item.id;
      } else {
        assert cart[k].item.id != cart[i].item.id;
      }
    }
  }

  /** Whatever the change, no two lines share an id and every quantity stays positive. */
  lemma {:induction false} QtyKeepsWellFormed(cart: seq<CartLine>, id: int, change: int)
    requires WellFormedCart(cart)
    ensures WellFormedCart(WithQtyChanged(cart, id, change))
  {
    match FindIndex(cart, LineIdIs(id))
    case None =>
    case Some(k) =>
      assert LineIdIs(id)(cart[k]);
      if cart[k].quantity + change <= 0 {
        QtyChangeRemoves(cart, id, change, k);
        RemoveKeepsWellFormed(cart, k);
      } else {
        QtyChangeUpdates(cart, id, change, k);
      }
  }

  // ---------------------------------------------------------------- coupons

  /** `c => c.code === code && c.active`. */
  function ActiveCode(code: string): Coupon -> bool
  {
    (c: Coupon) => c.code == code && c.active
  }

  /** The coupon `applyCoupon` picks for the typed `input`: the first stored
      coupon that is active and whose code equals the upper-cased input. */
  function FindCoupon(coupons: seq<Coupon>, input: string): (r: Option<Coupon>)
    ensures r.Some? ==> r.value in coupons && r.value.active && r.value.code == ToUpperCase(input)
    ensures r.Some? ==>
      exists k :: 0 <= k < |coupons| && coupons[k] == r.value &&
        forall j :: 0 <= j < k ==> !(coupons[j].active && coupons[j].code == ToUpperCase(input))
    ensures r.None? <==> forall c :: c in coupons && c.active ==> c.code != ToUpperCase(input)
  {
    match FindIndex(coupons, ActiveCode(ToUpperCase(input)))
    case None =>
      assert forall c :: c in coupons && c.active ==> c.code != ToUpperCase(input) by {
        forall c | c in coupons && c.active ensures c.code != ToUpperCase(input) {
          var i :| 0 <= i < |coupons| && coupons[i] == c;
          assert !ActiveCode(ToUpperCase(input))(coupons[i]);
        }
      }
      None
    case Some(k) =>
      assert ActiveCode(ToUpperCase(input))(coupons[k]);
      assert forall j :: 0 <= j < k ==> !ActiveCode(ToUpperCase(input))(coupons[j]);
      Some(coupons[k])
  }

  /** Codes are compared after upper-casing, so typing a code in any mix of
      cases finds the same coupon. */
  lemma {:induction false} CouponLookupIgnoresCase(coupons: seq<Coupon>, a: string, b: string)
    requires ToUpperCase(a) == ToUpperCase(b)
    ensures FindCoupon(coupons, a) == FindCoupon(coupons, b)
  {
  }

  // --------------------------------------------------------------- checkout

  /** The five fields of the checkout form. */
  datatype CheckoutForm = CheckoutForm(
    name: string, phone: string, address: string, landmark: string, payment: string)

  /** `'ORD' + Math.floor(Math.random() * 1000000)` for the random draw. */
  function OrderId(draw: nat): (id: string)
    ensures |id| >= 4 && id[..3] == "ORD"
    ensures id[3..] == NatToString(draw)
  {
    "ORD" + NatToString(draw)
  }

  /** Two orders get the same id only from the same random draw. */
  lemma {:induction false} OrderIdInjective(a: nat, b: nat)
    requires OrderId(a) == OrderId(b)
    ensures a == b
  {
    assert NatToString(a) == OrderId(a)[3..];
    assert NatToString(b) == OrderId(b)[3..];
    NatToStringRoundTrip(a);
    NatToStringRoundTrip(b);
  }

  /** The order `k` is the first in `h` with id `id`: the one `find` returns. */
  predicate IsFirstOrder(h: seq<Order>, id: string, k: int)
  {
    0 <= k < |h| && h[k].id == id && forall j :: 0 <= j < k ==> h[j].id != id
  }

  lemma {:induction false} FirstOrderUnique(h: seq<Order>, id: string, k1: int, k2: int)
    requires IsFirstOrder(h, id, k1) && IsFirstOrder(h, id, k2)
    ensures k1 == k2
  {
  }

  /** `checkForActiveOrder`: the banner shows when the first stored order
      whose id is `last_order_id` exists and is not delivered. */
  function ActiveOrder(history: Slot<seq<Order>>, lastId: Option<string>): (active: bool)
    ensures active <==> (lastId.Some? &&
      exists k :: IsFirstOrder(SafeParse(history, []), lastId.value, k) && SafeParse(history, [])[k].status != "delivered")
  {
    var h := SafeParse(history, []);
    match lastId
    case None => false
    case Some(id) =>
      match FindIndex(h, OrderIdIs(id))
      case None =>
        assert forall k :: !IsFirstOrder(h, id, k) by {
          forall k | 0 <= k < |h| ensures !IsFirstOrder(h, id, k) {
            assert !OrderIdIs(id)(h[k]);
          }
        }
        false
      case Some(k) =>
        assert OrderIdIs(id)(h[k]);
        assert IsFirstOrder(h, id, k) by {
          forall j | 0 <= j < k ensures h[j].id != id {
            assert !OrderIdIs(id)(h[j]);
          }
        }
        forall k' | IsFirstOrder(h, id, k') ensures k' == k {
          FirstOrderUnique(h, id, k, k');
        }
        h[k].status != "delivered"
  }

  /** Right after checkout the new order is active, provided no earlier
      order drew the same random id. */
  lemma {:induction false} PlacedOrderIsActive(h: seq<Order>, o: Order)
    requires o.status == "pending"
    requires forall j :: 0 <= j < |h| ==> h[j].id != o.id
    ensures ActiveOrder(Holds(h + [o]), Some(o.id))
  {
    assert IsFirstOrder(h + [o], o.id, |h|);
  }

  /** Ids are not unique: when an earlier delivered order drew the same id,
      that order hides the new one and the banner stays off. */
  lemma {:induction false} IdCollisionHidesOrder(h: seq<Order>, o: Order, k: nat)
    requires IsFirstOrder(h, o.id, k) && h[k].status == "delivered"
    ensures !ActiveOrder(Holds(h + [o]), Some(o.id))
  {
    var h' := h + [o];
    assert IsFirstOrder(h', o.id, k);
    forall k' | IsFirstOrder(h', o.id, k') ensures k' == k {
      FirstOrderUnique(h', o.id, k, k');
    }
  }

  // --------------------------------------------------------------- tracking

  /** `stepMap[status] || 1`: pending, preparing, dispatched and delivered
      are steps 1 to 4; any other status shows as step 1. */
  function StepOf(status: string): (step: int)
    ensures 1 <= step <= 4
    ensures step == 2 <==> status == "preparing"
    ensures step == 3 <==> status == "dispatched"
    ensures step == 4 <==> status == "delivered"
  {
    if status == "pending" then 1
    else if status == "preparing" then 2
    else if status == "dispatched" then 3
    else if status == "delivered" then 4
    else 1
  }

  /** The lifecycle order of the four statuses is the order of their steps. */
  lemma {:induction false} StatusOrder()
    ensures StepOf("pending") < StepOf("preparing") < StepOf("dispatched") < StepOf("delivered")
  {
  }

  datatype StepMark = Done | Current | Ahead

  /** The marks on the tracking page's step elements for step `current`. */
  function StepMarks(current: int, steps: nat): (marks: seq<StepMark>)
    ensures |marks| == steps
    ensures forall i :: 0 <= i < steps ==> (marks[i] == Done <==> i + 1 < current)
    ensures forall i :: 0 <= i < steps ==> (marks[i] == Current <==> i + 1 == current)
  {
    seq(steps, i => if i + 1 < current then Done else if i + 1 == current then Current else Ahead)
  }

  /** Exactly one step is current when the current step exists. */
  lemma {:induction false} OneCurrentStep(current: int, steps: nat, i: nat, j: nat)
    requires i < steps && j < steps
    requires StepMarks(current, steps)[i] == Current && StepMarks(current, steps)[j] == Current
    ensures i == j
  {
  }

  datatype Tracking = Tracking(order: Order, step: int, marks: seq<StepMark>)

  /** The id `trackOrder` looks up: "current" stands for `last_order_id`. */
  function TrackTarget(lastId: Option<string>, requested: string): Option<string>
  {
    if requested == "current" then lastId else Some(requested)
  }

  /** `trackOrder(requested)`: the first stored order with the looked-up
      id is shown with its step marks; nothing is shown when no order has
      that id. */
  function TrackOrder(history: Slot<seq<Order>>, lastId: Option<string>, requested: string, steps: nat)
    : (r: Option<Tracking>)
    ensures r.Some? <==> (TrackTarget(lastId, requested).Some? &&
      exists k :: IsFirstOrder(SafeParse(history, []), TrackTarget(lastId, requested).value, k))
    ensures r.Some? ==> forall k :: IsFirstOrder(SafeParse(history, []), TrackTarget(lastId, requested).value, k) ==>
      r.value.order == SafeParse(history, [])[k]
    ensures r.Some? ==>
      && r.value.step == StepOf(r.value.order.status)
      && r.value.marks == StepMarks(r.value.step, steps)
  {
    var h := SafeParse(history, []);
    match TrackTarget(lastId, requested)
    case None => None
    case Some(id) =>
      match FindIndex(h, OrderIdIs(id))
      case None =>
        assert forall k :: !IsFirstOrder(h, id, k) by {
          forall k | 0 <= k < |h| ensures !IsFirstOrder(h, id, k) {
            assert !OrderIdIs(id)(h[k]);
          }
        }
        None
      case Some(k) =>
        assert OrderIdIs(id)(h[k]);
        assert IsFirstOrder(h, id, k) by {
          forall j | 0 <= j < k ensures h[j].id != id {
            assert !OrderIdIs(id)(h[j]);
          }
        }
        forall k' | IsFirstOrder(h, id, k') ensures k' == k {
          FirstOrderUnique(h, id, k, k');
        }
        var step := StepOf(h[k].status);
        Some(Tracking(h[k], step, StepMarks(step, steps)))
  }

  // ---------------------------------------------------------------- session

  /** One browser tab's global state: the cart, the applied coupon, the
      menu read at start-up and the saved profile read at start-up. */
  class Session {
    var cart: seq<CartLine>
    var appliedCoupon: Option<Coupon>
    var currentMenu: seq<MenuItem>
    var currentUser: Option<Profile>

    predicate Valid()
      reads this
    {
      WellFormedCart(cart)
    }

    constructor ()
      ensures Valid()
      ensures cart == [] && appliedCoupon == None && currentMenu == [] && currentUser == None
    {
      cart, appliedCoupon, currentMenu, currentUser := [], None, [], None;
    }

    /** `initApp`: read the saved profile, seed the menu key if it is
        missing or empty, then read the menu with the default as fallback. */
    method Init(store: KeyValueStore)
      modifies this`currentUser, this`currentMenu, store`menu
      ensures currentUser == if store.profile.Holds? then Some(store.profile.value) else None
      ensures store.menu == Seeded(old(store.menu))
      ensures currentMenu == if old(store.menu).Holds? then old(store.menu).value else DefaultMenu
      ensures cart == old(cart) && appliedCoupon == old(appliedCoupon)
    {
      currentUser := if store.profile.Holds? then Some(store.profile.value) else None;
      store.SeedMenu();
      currentMenu := SafeParse(store.menu, DefaultMenu);
    }

    /** `addToCart(id)`. */
    method AddToCart(id: int)
      requires Valid()
      modifies this`cart
      ensures Valid()
      ensures cart == WithAdded(old(cart), currentMenu, id)
    {
      AddKeepsWellFormed(cart, currentMenu, id);
      var m := FindIndex(currentMenu, MenuIdIs(id));
      if m.None? {
        return;
      }
      var existing := FindIndex(cart, LineIdIs(id));
      if existing.Some? {
        var k := existing.value;
        cart := cart[k := cart[k].(quantity := cart[k].quantity + 1)];
      } else {
        cart := cart + [CartLine(currentMenu[m.value], 1)];
      }
    }

    /** `updateQty(id, change)`. */
    method UpdateQty(id: int, change: int)
      requires Valid()
      modifies this`cart
      ensures Valid()
      ensures cart == WithQtyChanged(old(cart), id, change)
    {
      QtyKeepsWellFormed(cart, id, change);
      var found := FindIndex(cart, LineIdIs(id));
      if found.Some? {
        var k := found.value;
        var q := cart[k].quantity + change;
        if q <= 0 {
          cart := Filter(cart, LineIdIsNot(id));
        } else {
          cart := cart[k := cart[k].(quantity := q)];
        }
      }
    }

    /** `applyCoupon()`: the typed code replaces the applied coupon with the
        matching one, or clears it when nothing matches. */
    method ApplyCoupon(store: KeyValueStore, input: string) returns (applied: bool)
      modifies this`appliedCoupon
      ensures appliedCoupon == FindCoupon(SafeParse(store.coupons, []), input)
      ensures applied <==> appliedCoupon.Some?
    {
      appliedCoupon := FindCoupon(SafeParse(store.coupons, []), input);
      applied := appliedCoupon.Some?;
    }

    /** `handleOrderSubmit`: record a pending order for the whole cart, save
        the contact details as the profile and remember the order's id. The
        stored total is the cart's subtotal, without the applied coupon, and
        the cart itself is left as it was. */
    method PlaceOrder(store: KeyValueStore, draw: nat, form: CheckoutForm, timestamp: string)
      returns (order: Order)
      requires draw < 1000000
      modifies store`profile, store`history, store`lastOrderId
      ensures order.id == OrderId(draw)
      ensures order.name == form.name && order.phone == form.phone && order.address == form.address
      ensures order.landmark == form.landmark && order.payment == form.payment
      ensures order.items == cart && order.total == Some(Subtotal(cart))
      ensures order.status == "pending" && order.timestamp == timestamp
      ensures store.profile == Holds(Profile(form.name, form.phone, form.address, form.landmark))
      ensures store.history == Holds(SafeParse(old(store.history), []) + [order])
      ensures store.lastOrderId == Some(order.id)
      ensures cart == old(cart) && appliedCoupon == old(appliedCoupon)
    {
      var id := OrderId(draw);
      order := Order(id, form.name, form.phone, form.address, form.landmark, form.payment,
                     cart, Some(Subtotal(cart)), "pending", timestamp);
      store.profile := Holds(Profile(form.name, form.phone, form.address, form.landmark));
      var history := SafeParse(store.history, []);
      history := history + [order];
      store.history := Holds(history);
      store.lastOrderId := Some(id);
    }

    /** The home button: empty the cart and drop the applied coupon. */
    method GoHome()
      modifies this`cart, this`appliedCoupon
      ensures Valid()
      ensures cart == [] && appliedCoupon == None
    {
      cart := [];
      appliedCoupon := None;
    }
  }
}
