/**
 * Cart arithmetic: the badge count, the subtotal and the payable total
 * after a percentage coupon. Counts and sums are folds from the left,
 * as `Array.prototype.reduce` computes them.
 */
module Pricing {
  import opened Js
  import opened Store

  /** The badge count: the sum of the lines' quantities. */
  function ItemCount(cart: seq<CartLine>): (n: int)
    ensures (forall i :: 0 <= i < |cart| ==> cart[i].quantity >= 1) ==> n >= |cart|
  {
    if |cart| == 0 then 0 else ItemCount(cart[..|cart| - 1]) + cart[|cart| - 1].quantity
  }

  /** The subtotal: the sum of price times quantity over the lines. */
  function Subtotal(cart: seq<CartLine>): (s: int)
    ensures (forall i :: 0 <= i < |cart| ==> cart[i].item.price >= 0 && cart[i].quantity >= 0) ==> s >= 0
  {
    if |cart| == 0 then 0
    else Subtotal(cart[..|cart| - 1]) + cart[|cart| - 1].item.price * cart[|cart| - 1].quantity
  }

  lemma {:induction false} ItemCountAppend(a: seq<CartLine>, b: seq<CartLine>)
    ensures ItemCount(a + b) == ItemCount(a) + ItemCount(b)
    decreases |b|
  {
    if |b| > 0 {
      assert (a + b)[..|a + b| - 1] == a + b[..|b| - 1];
      ItemCountAppend(a, b[..|b| - 1]);
    } else {
      assert a + b == a;
    }
  }

  lemma {:induction false} SubtotalAppend(a: seq<CartLine>, b: seq<CartLine>)
    ensures Subtotal(a + b) == Subtotal(a) + Subtotal(b)
    decreases |b|
  {
    if |b| > 0 {
      assert (a + b)[..|a + b| - 1] == a + b[..|b| - 1];
      SubtotalAppend(a, b[..|b| - 1]);
    } else {
      assert a + b == a;
    }
  }

  /** Replacing the line at `k` changes the count and the subtotal by the
      difference between the new line and the old one. */
  lemma {:induction false} SumsAfterReplace(cart: seq<CartLine>, k: nat, line: CartLine)
    requires k < |cart|
    ensures ItemCount(cart[k := line]) == ItemCount(cart) - cart[k].quantity + line.quantity
    ensures Subtotal(cart[k := line]) ==
      Subtotal(cart) - cart[k].item.price * cart[k].quantity + line.item.price * line.quantity
  {
    var pre, post := cart[..k], cart[k + 1..];
    SplitAt(cart, k);
    assert cart[k := line] == pre + [line] + post;
    ItemCountAppend(pre + [cart[k]], post);
    ItemCountAppend(pre, [cart[k]]);
    ItemCountAppend(pre + [line], post);
    ItemCountAppend(pre, [line]);
    SubtotalAppend(pre + [cart[k]], post);
    SubtotalAppend(pre, [cart[k]]);
    SubtotalAppend(pre + [line], post);
    SubtotalAppend(pre, [line]);
  }

  /** Removing the line at `k` takes its quantity off the count and its
      price times quantity off the subtotal. */
  lemma {:induction false} SumsAfterRemove(cart: seq<CartLine>, k: nat)
    requires k < |cart|
    ensures ItemCount(cart[..k] + cart[k + 1..]) == ItemCount(cart) - cart[k].quantity
    ensures Subtotal(cart[..k] + cart[k + 1..]) == Subtotal(cart) - cart[k].item.price * cart[k].quantity
  {
    var pre, post := cart[..k], cart[k + 1..];
    SplitAt(cart, k);
    ItemCountAppend(pre + [cart[k]], post);
    ItemCountAppend(pre, [cart[k]]);
    ItemCountAppend(pre, post);
    SubtotalAppend(pre + [cart[k]], post);
    SubtotalAppend(pre, [cart[k]]);
    SubtotalAppend(pre, post);
  }

  /** `Math.floor(subtotal * percent / 100)`. Dafny's division by a
      positive divisor rounds toward minus infinity, which is floor. */
  function Discount(subtotal: int, percent: int): (d: int)
    ensures d * 100 <= subtotal * percent < d * 100 + 100
  {
    subtotal * percent / 100
  }

  /** The total shown in the cart: the subtotal less the applied coupon's
      discount, or the subtotal when no coupon is applied. */
  function PayableTotal(subtotal: int, coupon: Option<Coupon>): (t: int)
    ensures coupon.None? ==> t == subtotal
    ensures coupon.Some? && 0 <= subtotal && 0 <= coupon.value.discount <= 100 ==> 0 <= t <= subtotal
  {
    subtotal - (if coupon.Some? then Discount(subtotal, coupon.value.discount) else 0)
  }

  /** Two at 299 and one at 199 come to 797. */
  lemma {:induction false} SubtotalExample(a: MenuItem, b: MenuItem)
    requires a.price == 299 && b.price == 199
    ensures Subtotal([CartLine(a, 2), CartLine(b, 1)]) == 797
    ensures ItemCount([CartLine(a, 2), CartLine(b, 1)]) == 3
  {
    var c := [CartLine(a, 2), CartLine(b, 1)];
    assert c[..1] == [CartLine(a, 2)];
    assert [CartLine(a, 2)][..0] == [];
    assert Subtotal([CartLine(a, 2)]) == 598;
    assert ItemCount([CartLine(a, 2)]) == 2;
  }

  /** A 15% coupon on a subtotal of 1000 leaves 850 to pay. */
  lemma {:induction false} PayableExample()
    ensures PayableTotal(1000, Some(Coupon("SAVE15", 15, true))) == 850
  {
  }
}
