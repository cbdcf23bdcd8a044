/**
 * The admin console: the dashboard figures, order status updates, the
 * product form, product and coupon deletion, coupon creation, clearing
 * the order history and the customer ledger. Every operation reads the
 * shared store afresh and writes back what it changed. Answers to the
 * browser's `confirm` and `prompt` dialogs, the clock and the parsed
 * numbers of form fields are parameters.
 */
module Admin {
  import opened Js
  import opened Store
  import opened Pricing
  import opened Storefront

  // -------------------------------------------------------------- dashboard

  /** `o.total || 0`: an order without a total counts as nothing. */
  function TotalOrZero(o: Order): int
  {
    match o.total
    case Some(t) => t
    case None => 0
  }

  /** Total sales: the sum of the orders' totals, missing ones as 0. */
  function SalesTotal(h: seq<Order>): (s: int)
    ensures (forall i :: 0 <= i < |h| ==> TotalOrZero(h[i]) >= 0) ==> s >= 0
  {
    if |h| == 0 then 0 else SalesTotal(h[..|h| - 1]) + TotalOrZero(h[|h| - 1])
  }

  lemma {:induction false} SalesTotalAppend(h: seq<Order>, o: Order)
    ensures SalesTotal(h + [o]) == SalesTotal(h) + TotalOrZero(o)
  {
    assert (h + [o])[..|h|] == h;
  }

  /** The distinct phone numbers of the orders. */
  function PhoneSet(h: seq<Order>): (r: set<string>)
    ensures forall p :: p in r <==> exists i :: 0 <= i < |h| && h[i].phone == p
  {
    if |h| == 0 then {}
    else
      var r := PhoneSet(h[..|h| - 1]) + {h[|h| - 1].phone};
      assert forall i :: 0 <= i < |h| - 1 ==> h[..|h| - 1][i] == h[i];
      r
  }

  /** There are never more customers than orders. */
  lemma {:induction false} PhoneSetBound(h: seq<Order>)
    ensures |PhoneSet(h)| <= |h|
  {
    if |h| > 0 {
      PhoneSetBound(h[..|h| - 1]);
    }
  }

  datatype Stats = Stats(orders: nat, sales: int, customers: nat)

  /** `loadDashboard`'s three figures for the stored history. */
  function DashboardStats(history: Slot<seq<Order>>): (s: Stats)
    ensures s.customers <= s.orders
    ensures s.orders == 0 ==> s.sales == 0 && s.customers == 0
  {
    var h := SafeParse(history, []);
    PhoneSetBound(h);
    Stats(|h|, SalesTotal(h), |PhoneSet(h)|)
  }

  /** A checkout raises total sales by the order's stored total, which is
      the cart's subtotal before any coupon. */
  lemma {:induction false} CheckoutAddsUndiscountedSubtotal(h: seq<Order>, o: Order, cart: seq<CartLine>, coupon: Coupon)
    requires o.total == Some(Subtotal(cart))
    requires 0 < coupon.discount <= 100 && 100 <= Subtotal(cart)
    ensures DashboardStats(Holds(h + [o])).sales == DashboardStats(Holds(h)).sales + Subtotal(cart)
    ensures DashboardStats(Holds(h + [o])).sales > DashboardStats(Holds(h)).sales + PayableTotal(Subtotal(cart), Some(coupon))
  {
    SalesTotalAppend(h, o);
    var sub := Subtotal(cart);
    AtLeastOnce(sub, coupon.discount);
    var d := Discount(sub, coupon.discount);
    assert d * 100 + 100 > 100;
  }

  lemma {:induction false} AtLeastOnce(a: int, n: int)
    requires a >= 0 && n >= 1
    ensures a * n >= a
  {
    assert a * n == a + a * (n - 1);
  }

  // ---------------------------------------------------------------- ledger

  /** One row of the customer list: the name and address of the first
      order seen for the phone, how many orders, and the running sum of
      their totals, which turns NaN once an order without a total is added. */
  datatype CustomerRow = CustomerRow(name: string, orders: nat, sales: Num, address: string)

  /** `s += o.total`. */
  function AddTotal(s: Num, t: Option<int>): (r: Num)
    ensures r.Finite? <==> s.Finite? && t.Some?
    ensures r.Finite? ==> r.v == s.v + t.value
  {
    match s
    case NaN => NaN
    case Finite(v) => if t.Some? then Finite(v + t.value) else NaN
  }

  /** One step of `loadCustomers`'s `forEach`: open a row for a new phone,
      then count the order and add its total. */
  function Tally(ledger: map<string, CustomerRow>, o: Order): (r: map<string, CustomerRow>)
    ensures r.Keys == ledger.Keys + {o.phone}
    ensures forall p :: p in ledger && p != o.phone ==> r[p] == ledger[p]
    ensures r[o.phone].orders == (if o.phone in ledger then ledger[o.phone].orders else 0) + 1
    ensures r[o.phone].sales == AddTotal(if o.phone in ledger then ledger[o.phone].sales else Finite(0), o.total)
    ensures o.phone in ledger ==> r[o.phone].name == ledger[o.phone].name && r[o.phone].address == ledger[o.phone].address
    ensures o.phone !in ledger ==> r[o.phone].name == o.name && r[o.phone].address == o.address
  {
    var row := if o.phone in ledger then ledger[o.phone] else CustomerRow(o.name, 0, Finite(0), o.address);
    ledger[o.phone := row.(orders := row.orders + 1, sales := AddTotal(row.sales, o.total))]
  }

  /** The customer list for a history, keyed by phone. */
  function Ledger(h: seq<Order>): map<string, CustomerRow>
  {
    if |h| == 0 then map[] else Tally(Ledger(h[..|h| - 1]), h[|h| - 1])
  }

  /** `loadCustomers`: fold the stored history into the customer list. */
  method LoadCustomers(store: KeyValueStore) returns (ledger: map<string, CustomerRow>)
    ensures ledger == Ledger(SafeParse(store.history, []))
  {
    var h := SafeParse(store.history, []);
    ledger := map[];
    var i := 0;
    while i < |h|
      invariant 0 <= i <= |h|
      invariant ledger == Ledger(h[..i])
    {
      assert h[..i + 1][..i] == h[..i];
      ledger := Tally(ledger, h[i]);
      i := i + 1;
    }
    assert h[..|h|] == h;
  }

  function PhoneIs(phone: string): Order -> bool
  {
    (o: Order) => o.phone == phone
  }

  /** The ledger has one row per distinct phone: as many rows as the
      dashboard counts customers. */
  lemma {:induction false} LedgerKeys(h: seq<Order>)
    ensures Ledger(h).Keys == PhoneSet(h)
    ensures |Ledger(h).Keys| == DashboardStats(Holds(h)).customers
  {
    if |h| > 0 {
      LedgerKeys(h[..|h| - 1]);
    }
  }

  /** The orders of one phone in the history extended by `o`. */
  lemma {:induction false} MineAppend(init: seq<Order>, o: Order, p: string)
    ensures Filter(init + [o], PhoneIs(p)) == Filter(init, PhoneIs(p)) + (if o.phone == p then [o] else [])
  {
    FilterAppend(init, [o], PhoneIs(p));
    assert [o][1..] == [];
  }

  /** A phone with no row has no orders. */
  lemma {:induction false} NoRowNoOrders(h: seq<Order>, p: string)
    requires p !in Ledger(h)
    ensures Filter(h, PhoneIs(p)) == []
  {
    LedgerKeys(h);
    forall i | 0 <= i < |h| ensures !PhoneIs(p)(h[i]) {
    }
    FilterNone(h, PhoneIs(p));
  }

  /** A row counts exactly the orders placed with its phone. */
  lemma {:induction false} LedgerOrders(h: seq<Order>, p: string)
    requires p in Ledger(h)
    ensures Ledger(h)[p].orders == |Filter(h, PhoneIs(p))|
  {
    if |h| > 0 {
      var init, o := h[..|h| - 1], h[|h| - 1];
      assert h == init + [o];
      MineAppend(init, o, p);
      if p in Ledger(init) {
        LedgerOrders(init, p);
      } else {
        NoRowNoOrders(init, p);
      }
    }
  }

  /** Every order of the list has a total. */
  predicate AllTotalled(os: seq<Order>)
  {
    forall i :: 0 <= i < |os| ==> os[i].total.Some?
  }

  lemma {:induction false} AllTotalledAppend(a: seq<Order>, o: Order)
    ensures AllTotalled(a + [o]) <==> AllTotalled(a) && o.total.Some?
  {
    assert forall i :: 0 <= i < |a| ==> (a + [o])[i] == a[i];
    assert (a + [o])[|a|] == o;
  }

  /** A row's sales are the sum of its orders' totals when every one of
      them has a total, and NaN as soon as one has none. */
  lemma {:induction false} LedgerSales(h: seq<Order>, p: string)
    requires p in Ledger(h)
    ensures var mine := Filter(h, PhoneIs(p));
      Ledger(h)[p].sales == if AllTotalled(mine) then Finite(SalesTotal(mine)) else NaN
  {
    if |h| > 0 {
      var init, o := h[..|h| - 1], h[|h| - 1];
      assert h == init + [o];
      MineAppend(init, o, p);
      if o.phone == p {
        if p in Ledger(init) {
          LedgerSales(init, p);
        }
        LedgerSalesStep(init, o);
      } else {
        assert Filter(h, PhoneIs(p)) == Filter(init, PhoneIs(p));
        LedgerSales(init, p);
      }
    }
  }

  /** The inductive step of `LedgerSales` for an order from the row's own phone. */
  lemma {:induction false} LedgerSalesStep(init: seq<Order>, o: Order)
    requires o.phone in Ledger(init) ==>
      var before := Filter(init, PhoneIs(o.phone));
      Ledger(init)[o.phone].sales == if AllTotalled(before) then Finite(SalesTotal(before)) else NaN
    ensures var mine := Filter(init, PhoneIs(o.phone)) + [o];
      Ledger(init + [o])[o.phone].sales == if AllTotalled(mine) then Finite(SalesTotal(mine)) else NaN
  {
    var before := Filter(init, PhoneIs(o.phone));
    assert (init + [o])[..|init|] == init;
    SalesTotalAppend(before, o);
    AllTotalledAppend(before, o);
    if o.phone !in Ledger(init) {
      NoRowNoOrders(init, o.phone);
      assert before + [o] == [o];
    }
  }

  /** A row keeps the name and address of the first order with its phone;
      later orders from the same phone never rename it. */
  lemma {:induction false} LedgerFirstContact(h: seq<Order>, p: string, k: nat)
    requires k < |h| && h[k].phone == p
    requires forall j :: 0 <= j < k ==> h[j].phone != p
    ensures p in Ledger(h)
    ensures Ledger(h)[p].name == h[k].name && Ledger(h)[p].address == h[k].address
  {
    var n := |h|;
    var init := h[..n - 1];
    LedgerKeys(h);
    if k < n - 1 {
      LedgerFirstContact(init, p, k);
    } else {
      LedgerKeys(init);
    }
  }

  /** The phones in the order their rows were opened, which is the order
      in which `Object.entries` lists the rows. */
  function PhoneOrder(h: seq<Order>): (ps: seq<string>)
    ensures forall p :: p in ps <==> p in PhoneSet(h)
    ensures forall i, j :: 0 <= i < j < |ps| ==> ps[i] != ps[j]
  {
    if |h| == 0 then []
    else
      var ps := PhoneOrder(h[..|h| - 1]);
      if h[|h| - 1].phone in ps then ps else ps + [h[|h| - 1].phone]
  }

  /** The orders column summed over the rows for `ps`. */
  function OrdersColumn(ledger: map<string, CustomerRow>, ps: seq<string>): int
    requires forall p :: p in ps ==> p in ledger
  {
    if |ps| == 0 then 0 else ledger[ps[0]].orders + OrdersColumn(ledger, ps[1..])
  }

  /** Raising one row's count by one raises the column sum by one. */
  lemma {:induction false} OrdersColumnBump(a: map<string, CustomerRow>, b: map<string, CustomerRow>, ps: seq<string>, q: string)
    requires forall p :: p in ps ==> p in a && p in b
    requires forall i, j :: 0 <= i < j < |ps| ==> ps[i] != ps[j]
    requires q in b && b[q].orders == (if q in a then a[q].orders else 0) + 1
    requires forall p :: p in ps && p != q ==> b[p].orders == a[p].orders
    ensures OrdersColumn(b, ps) == OrdersColumn(a, ps) + (if q in ps then 1 else 0)
  {
    if |ps| > 0 {
      assert forall i, j :: 0 <= i < j < |ps[1..]| ==> ps[1..][i] != ps[1..][j] by {
        forall i, j | 0 <= i < j < |ps[1..]| ensures ps[1..][i] != ps[1..][j] {
          assert ps[i + 1] != ps[j + 1];
        }
      }
      OrdersColumnBump(a, b, ps[1..], q);
      forall j | 0 <= j < |ps[1..]| ensures ps[1..][j] != ps[0] {
        assert ps[0] != ps[j + 1];
      }
      assert q in ps <==> ps[0] == q || q in ps[1..];
    }
  }

  lemma {:induction false} OrdersColumnAppend(l: map<string, CustomerRow>, ps: seq<string>, q: string)
    requires forall p :: p in ps ==> p in l
    requires q in l
    ensures OrdersColumn(l, ps + [q]) == OrdersColumn(l, ps) + l[q].orders
  {
    if |ps| == 0 {
      assert ps + [q] == [q];
    } else {
      assert (ps + [q])[1..] == ps[1..] + [q];
      OrdersColumnAppend(l, ps[1..], q);
    }
  }

  /** The orders column of the customer list adds up to the number of
      orders: every order is counted in exactly one row. */
  lemma {:induction false} OrdersColumnIsHistoryLength(h: seq<Order>)
    ensures forall p :: p in PhoneOrder(h) ==> p in Ledger(h)
    ensures OrdersColumn(Ledger(h), PhoneOrder(h)) == |h|
  {
    LedgerKeys(h);
    if |h| > 0 {
      var init, o := h[..|h| - 1], h[|h| - 1];
      var ps := PhoneOrder(init);
      LedgerKeys(init);
      OrdersColumnIsHistoryLength(init);
      var a, b := Ledger(init), Ledger(h);
      OrdersColumnBump(a, b, ps, o.phone);
      if o.phone !in ps {
        OrdersColumnAppend(b, ps, o.phone);
      }
    }
  }

  /** Two orders from one phone with totals 500 and 300: one row counting
      two orders worth 800, under the first order's name and address. */
  lemma {:induction false} LedgerExample(a: Order, b: Order)
    requires a.phone == "9999" && b.phone == "9999"
    requires a.total == Some(500) && b.total == Some(300)
    ensures Ledger([a, b]).Keys == {"9999"}
    ensures Ledger([a, b])["9999"] == CustomerRow(a.name, 2, Finite(800), a.address)
  {
    assert [a, b][..1] == [a];
    assert [a][..0] == [];
    assert Ledger([a]) == map["9999" := CustomerRow(a.name, 1, Finite(500), a.address)];
  }

  /** Two histories that agree on everything but order status. */
  predicate SameAccounts(a: seq<Order>, b: seq<Order>)
  {
    |a| == |b| &&
    forall i :: 0 <= i < |a| ==>
      a[i].phone == b[i].phone && a[i].name == b[i].name &&
      a[i].address == b[i].address && a[i].total == b[i].total
  }

  lemma {:induction false} SameAccountsPrefix(a: seq<Order>, b: seq<Order>)
    requires SameAccounts(a, b) && |a| > 0
    ensures SameAccounts(a[..|a| - 1], b[..|b| - 1])
  {
  }

  /** The dashboard figures and the customer list do not depend on order
      status. */
  lemma {:induction false} StatusIsNotAccounted(a: seq<Order>, b: seq<Order>)
    requires SameAccounts(a, b)
    ensures DashboardStats(Holds(a)) == DashboardStats(Holds(b))
    ensures Ledger(a) == Ledger(b)
  {
    SalesIgnoreStatus(a, b);
    PhonesIgnoreStatus(a, b);
    LedgerIgnoresStatus(a, b);
  }

  lemma {:induction false} SalesIgnoreStatus(a: seq<Order>, b: seq<Order>)
    requires SameAccounts(a, b)
    ensures SalesTotal(a) == SalesTotal(b)
  {
    if |a| > 0 {
      SameAccountsPrefix(a, b);
      SalesIgnoreStatus(a[..|a| - 1], b[..|b| - 1]);
    }
  }

  lemma {:induction false} PhonesIgnoreStatus(a: seq<Order>, b: seq<Order>)
    requires SameAccounts(a, b)
    ensures PhoneSet(a) == PhoneSet(b)
  {
    if |a| > 0 {
      SameAccountsPrefix(a, b);
      PhonesIgnoreStatus(a[..|a| - 1], b[..|b| - 1]);
    }
  }

  lemma {:induction false} LedgerIgnoresStatus(a: seq<Order>, b: seq<Order>)
    requires SameAccounts(a, b)
    ensures Ledger(a) == Ledger(b)
  {
    if |a| > 0 {
      SameAccountsPrefix(a, b);
      LedgerIgnoresStatus(a[..|a| - 1], b[..|b| - 1]);
      var o, o' := a[|a| - 1], b[|b| - 1];
      assert o.phone == o'.phone && o.name == o'.name && o.address == o'.address && o.total == o'.total;
    }
  }

  // ---------------------------------------------------------------- status

  /** `updateStatus(id, status)` on a history: the first order with that id
      gets the new status; None when no order has the id. */
  function WithStatus(h: seq<Order>, id: string, status: string): (r: Option<seq<Order>>)
    ensures r.None? <==> forall j :: 0 <= j < |h| ==> h[j].id != id
    ensures forall k :: IsFirstOrder(h, id, k) ==> r == Some(h[k := h[k].(status := status)])
  {
    match FindIndex(h, OrderIdIs(id))
    case None =>
      assert forall j :: 0 <= j < |h| ==> !OrderIdIs(id)(h[j]);
      None
    case Some(k) =>
      assert OrderIdIs(id)(h[k]);
      assert IsFirstOrder(h, id, k) by {
        forall j | 0 <= j < k ensures h[j].id != id {
          assert !OrderIdIs(id)(h[j]);
        }
      }
      forall k' | IsFirstOrder(h, id, k') ensures k' == k {
        FirstOrderUnique(h, id, k, k');
      }
      Some(h[k := h[k].(status := status)])
  }

  /** `updateStatus`: the history is written back only when an order with
      the id exists. */
  method UpdateStatus(store: KeyValueStore, id: string, status: string)
    modifies store`history
    ensures var r := WithStatus(SafeParse(old(store.history), []), id, status);
      store.history == if r.Some? then Holds(r.value) else old(store.history)
  {
    var h := SafeParse(store.history, []);
    var idx := FindIndex(h, OrderIdIs(id));
    if idx.Some? {
      assert OrderIdIs(id)(h[idx.value]);
      assert IsFirstOrder(h, id, idx.value) by {
        forall j | 0 <= j < idx.value ensures h[j].id != id {
          assert !OrderIdIs(id)(h[j]);
        }
      }
      h := h[idx.value := h[idx.value].(status := status)];
      store.history := Holds(h);
    }
  }

  /** Setting a status touches only status: the accounts are unchanged, the
      tracking page shows the new status's step, and marking the last order
      delivered turns the storefront's banner off. */
  lemma {:induction false} StatusUpdateEffects(h: seq<Order>, id: string, status: string, steps: nat)
    requires WithStatus(h, id, status).Some?
    ensures SameAccounts(h, WithStatus(h, id, status).value)
    ensures TrackOrder(Holds(WithStatus(h, id, status).value), Some(id), "current", steps).Some?
    ensures TrackOrder(Holds(WithStatus(h, id, status).value), Some(id), "current", steps).value.step == StepOf(status)
    ensures status == "delivered" ==> !ActiveOrder(Holds(WithStatus(h, id, status).value), Some(id))
  {
    var k := FirstIndexOf(h, id);
    var h' := h[k := h[k].(status := status)];
    assert IsFirstOrder(h', id, k);
    forall k' | IsFirstOrder(h', id, k') ensures k' == k {
      FirstOrderUnique(h', id, k, k');
    }
  }

  /** The index of the first order with the id, when there is one. */
  lemma {:induction false} FirstIndexOf(h: seq<Order>, id: string) returns (k: nat)
    requires exists j :: 0 <= j < |h| && h[j].id == id
    ensures IsFirstOrder(h, id, k)
  {
    var r := FindIndex(h, OrderIdIs(id));
    assert r.Some?;
    k := r.value;
    assert OrderIdIs(id)(h[k]);
    forall j | 0 <= j < k ensures h[j].id != id {
      assert !OrderIdIs(id)(h[j]);
    }
  }

  // ---------------------------------------------------------- product form

  /** The text fields of the product form, with price, rating and reviews
      already parsed. */
  datatype ProductForm = ProductForm(
    name: string, category: string, price: int, rating: real, desc: string, reviews: seq<Review>)

  function NewItem(id: int, form: ProductForm, images: seq<string>): MenuItem
  {
    MenuItem(id, form.name, form.category, form.price, form.rating, form.desc, images, form.reviews)
  }

  datatype SaveOutcome = Rejected | Saved(menu: seq<MenuItem>)

  /** The item at `k` is the first in `menu` with id `id`. */
  predicate IsFirstItem(menu: seq<MenuItem>, id: int, k: int)
  {
    0 <= k < |menu| && menu[k].id == id && forall j :: 0 <= j < k ==> menu[j].id != id
  }

  /** The product form's submit handler on the menu: rejected without
      images; otherwise a new product gets the clock's `now` as id and goes
      to the end, and an edit replaces the first item with the edited id,
      or changes nothing when no item has that id. */
  function ProductSaved(menu: seq<MenuItem>, editId: Option<int>, now: int, form: ProductForm, images: seq<string>)
    : (r: SaveOutcome)
    ensures r.Rejected? <==> |images| == 0
    ensures r.Saved? && editId.None? ==> r.menu == menu + [NewItem(now, form, images)]
    ensures r.Saved? && editId.Some? ==>
      forall k :: IsFirstItem(menu, editId.value, k) ==> r.menu == menu[k := NewItem(editId.value, form, images)]
    ensures r.Saved? && editId.Some? && (forall j :: 0 <= j < |menu| ==> menu[j].id != editId.value) ==>
      r.menu == menu
  {
    if |images| == 0 then Rejected
    else match editId
      case None => Saved(menu + [NewItem(now, form, images)])
      case Some(id) =>
        match FindIndex(menu, MenuIdIs(id))
        case None =>
          assert forall j :: 0 <= j < |menu| ==> !MenuIdIs(id)(menu[j]);
          Saved(menu)
        case Some(k) =>
          assert MenuIdIs(id)(menu[k]);
          assert forall j :: 0 <= j < k ==> !MenuIdIs(id)(menu[j]);
          assert forall k' :: IsFirstItem(menu, id, k') ==> k' == k;
          Saved(menu[k := NewItem(id, form, images)])
  }

  /** Every catalog item has at least one image. */
  predicate AllHaveImages(menu: seq<MenuItem>)
  {
    forall i :: 0 <= i < |menu| ==> |menu[i].images| > 0
  }

  lemma {:induction false} DefaultMenuHasImages()
    ensures AllHaveImages(DefaultMenu)
  {
    assert |DefaultMenu[0].images| == 1;
  }

  /** A saved product always has an image, so the form never breaks the
      "every item has an image" invariant. */
  lemma {:induction false} SaveKeepsImages(menu: seq<MenuItem>, editId: Option<int>, now: int, form: ProductForm, images: seq<string>)
    requires AllHaveImages(menu)
    requires ProductSaved(menu, editId, now, form, images).Saved?
    ensures AllHaveImages(ProductSaved(menu, editId, now, form, images).menu)
  {
    var r := ProductSaved(menu, editId, now, form, images).menu;
    if editId.Some? {
      match FindIndex(menu, MenuIdIs(editId.value))
      case None =>
        LineFreeMenu(menu, editId.value);
      case Some(k) =>
        assert MenuIdIs(editId.value)(menu[k]);
        assert forall j :: 0 <= j < k ==> !MenuIdIs(editId.value)(menu[j]);
    }
  }

  lemma {:induction false} LineFreeMenu(menu: seq<MenuItem>, id: int)
    requires FindIndex(menu, MenuIdIs(id)).None?
    ensures forall j :: 0 <= j < |menu| ==> menu[j].id != id
  {
    forall j | 0 <= j < |menu| ensures menu[j].id != id {
      assert !MenuIdIs(id)(menu[j]);
    }
  }

  /** A newly added product whose id is fresh is what the storefront's
      "Add" button for that id puts in the cart. */
  lemma {:induction false} AddedProductIsOrderable(cart: seq<CartLine>, menu: seq<MenuItem>, now: int, form: ProductForm, images: seq<string>)
    requires |images| > 0
    requires forall j :: 0 <= j < |menu| ==> menu[j].id != now
    requires forall j :: 0 <= j < |cart| ==> cart[j].item.id != now
    ensures var m := ProductSaved(menu, None, now, form, images).menu;
      WithAdded(cart, m, now) == cart + [CartLine(NewItem(now, form, images), 1)]
  {
    var m := menu + [NewItem(now, form, images)];
    AddNewAppends(cart, m, now, |menu|);
  }

  /** The submit handler on the store: the menu is read with the default
      menu as fallback and written back unless the form is rejected. */
  method SaveProduct(store: KeyValueStore, editId: Option<int>, now: int, form: ProductForm, images: seq<string>)
    returns (saved: bool)
    modifies store`menu
    ensures var r := ProductSaved(SafeParse(old(store.menu), DefaultMenu), editId, now, form, images);
      && (saved <==> r.Saved?)
      && store.menu == if r.Saved? then Holds(r.menu) else old(store.menu)
  {
    var menu := SafeParse(store.menu, DefaultMenu);
    if |images| == 0 {
      return false;
    }
    var item := NewItem(if editId.Some? then editId.value else now, form, images);
    if editId.Some? {
      var index := FindIndex(menu, MenuIdIs(editId.value));
      if index.Some? {
        menu := menu[index.value := item];
      }
    } else {
      menu := menu + [item];
    }
    store.menu := Holds(menu);
    saved := true;
  }

  // -------------------------------------------------------------- deletion

  function MenuIdIsNot(id: int): MenuItem -> bool
  {
    (i: MenuItem) => i.id != id
  }

  /** `deleteProduct(id)`: after confirmation, every item with the id is
      dropped from the stored menu, read with the empty menu as fallback. */
  method DeleteProduct(store: KeyValueStore, id: int, confirmed: bool)
    modifies store`menu
    ensures confirmed ==> store.menu == Holds(Filter(SafeParse(old(store.menu), []), MenuIdIsNot(id)))
    ensures !confirmed ==> store.menu == old(store.menu)
  {
    if confirmed {
      var menu := Filter(SafeParse(store.menu, []), MenuIdIsNot(id));
      store.menu := Holds(menu);
    }
  }

  /** After deletion no item has the id, so adding it to a cart does
      nothing; every other item keeps all its copies. */
  lemma {:induction false} DeletedProductIsGone(menu: seq<MenuItem>, id: int, cart: seq<CartLine>, x: MenuItem)
    ensures forall j :: 0 <= j < |Filter(menu, MenuIdIsNot(id))| ==> Filter(menu, MenuIdIsNot(id))[j].id != id
    ensures WithAdded(cart, Filter(menu, MenuIdIsNot(id)), id) == cart
    ensures x.id != id ==> multiset(Filter(menu, MenuIdIsNot(id)))[x] == multiset(menu)[x]
  {
    var r := Filter(menu, MenuIdIsNot(id));
    FilterMembers(menu, MenuIdIsNot(id));
    forall j | 0 <= j < |r| ensures r[j].id != id {
      assert r[j] in r;
    }
    AddUnknownIsNoOp(cart, r, id);
    FilterCounts(menu, MenuIdIsNot(id), x);
  }

  /** Deleting from a menu key that was never seeded stores the empty menu,
      and the storefront's seeding then leaves the catalog empty. */
  lemma {:induction false} DeleteBeforeSeedingEmptiesCatalog(id: int)
    ensures Seeded(Holds(Filter(SafeParse(Missing, []), MenuIdIsNot(id)))) == Holds([])
  {
  }

  /** `clearOrders()`: after confirmation the history key is removed. */
  method ClearOrders(store: KeyValueStore, confirmed: bool)
    modifies store`history
    ensures store.history == if confirmed then Missing else old(store.history)
  {
    if confirmed {
      store.history := Missing;
    }
  }

  /** With the history cleared the dashboard reads zero everywhere, the
      customer list is empty and no order is tracked or flagged active. */
  lemma {:induction false} ClearedHistoryIsEmpty(lastId: Option<string>, requested: string, steps: nat)
    ensures DashboardStats(Missing) == Stats(0, 0, 0)
    ensures Ledger(SafeParse(Missing, [])) == map[]
    ensures !ActiveOrder(Missing, lastId)
    ensures TrackOrder(Missing, lastId, requested, steps).None?
  {
  }

  // ---------------------------------------------------------------- coupons

  /** `showCouponForm()`: when both prompts were answered with non-empty
      text, an active coupon with the upper-cased code and the parsed
      discount is appended to the stored coupons. A cancelled prompt is None. */
  method AddCoupon(store: KeyValueStore, code: Option<string>, disc: Option<string>, discount: int)
    modifies store`coupons
    ensures code.Some? && code.value != "" && disc.Some? && disc.value != "" ==>
      store.coupons == Holds(SafeParse(old(store.coupons), []) + [Coupon(ToUpperCase(code.value), discount, true)])
    ensures !(code.Some? && code.value != "" && disc.Some? && disc.value != "") ==>
      store.coupons == old(store.coupons)
  {
    if code.Some? && code.value != "" && disc.Some? && disc.value != "" {
      var c := SafeParse(store.coupons, []);
      c := c + [Coupon(ToUpperCase(code.value), discount, true)];
      store.coupons := Holds(c);
    }
  }

  /** A coupon just created applies to its code typed in any case; it is
      the coupon applied unless an older active coupon has the same code. */
  lemma {:induction false} AddedCouponApplies(coupons: seq<Coupon>, code: string, discount: int, input: string)
    requires ToUpperCase(input) == ToUpperCase(code)
    ensures var added := coupons + [Coupon(ToUpperCase(code), discount, true)];
      && FindCoupon(added, input).Some?
      && ((forall c :: c in coupons && c.active ==> c.code != ToUpperCase(code)) ==>
            FindCoupon(added, input) == Some(Coupon(ToUpperCase(code), discount, true)))
  {
    var added := coupons + [Coupon(ToUpperCase(code), discount, true)];
    assert added[|coupons|] in added;
    if forall c :: c in coupons && c.active ==> c.code != ToUpperCase(code) {
      var r := FindCoupon(added, input);
      assert r.value !in coupons;
    }
  }

  function CodeIsNot(code: string): Coupon -> bool
  {
    (x: Coupon) => x.code != code
  }

  /** `deleteCoupon(code)`: every stored coupon with exactly that code is dropped. */
  method DeleteCoupon(store: KeyValueStore, code: string)
    modifies store`coupons
    ensures store.coupons == Holds(Filter(SafeParse(old(store.coupons), []), CodeIsNot(code)))
  {
    var c := Filter(SafeParse(store.coupons, []), CodeIsNot(code));
    store.coupons := Holds(c);
  }

  /** A deleted code no longer applies, in any case; every other code
      applies exactly as before. */
  lemma {:induction false} DeletedCouponEffects(coupons: seq<Coupon>, code: string, input: string)
    ensures ToUpperCase(input) == code ==> FindCoupon(Filter(coupons, CodeIsNot(code)), input).None?
    ensures ToUpperCase(input) != code ==>
      FindCoupon(Filter(coupons, CodeIsNot(code)), input) == FindCoupon(coupons, input)
  {
    var key := ToUpperCase(input);
    var kept := Filter(coupons, CodeIsNot(code));
    FilterMembers(coupons, CodeIsNot(code));
    if key != code {
      FilterKeepsFirst(coupons, CodeIsNot(code), ActiveCode(key));
    }
  }
}
