/**
 * The order cart shared by the staff order form and the customer portal:
 * lines that merge when the same dish is added again without notes, a
 * quantity editor that drops a line at zero, and the running subtotal.
 */
module Cart {
  import opened Types
  import opened Seqs

  /** A line's total is its quantity times its unit price, and the quantity is at least one. */
  predicate LineOk(l: OrderItem)
  {
    l.cantidad >= 1 && l.totalItem == l.cantidad * l.precioUnitario
  }

  predicate CartOk(cart: seq<OrderItem>)
  {
    forall i :: 0 <= i < |cart| ==> LineOk(cart[i])
  }

  predicate IdsDistinct(cart: seq<OrderItem>)
  {
    forall i, j :: 0 <= i < j < |cart| ==> cart[i].id != cart[j].id
  }

  predicate HasLine(cart: seq<OrderItem>, id: string)
  {
    exists i :: 0 <= i < |cart| && cart[i].id == id
  }

  /** The line an added dish merges into: same menu item, no notes. */
  function MergeTarget(item: MenuItem): OrderItem -> bool
  {
    (ci: OrderItem) => ci.menuItemId == item.id && ci.notes == ""
  }

  /** The lines `updateQuantity` keeps when it drops line `id`. */
  function NotLine(id: string): OrderItem -> bool
  {
    (l: OrderItem) => l.id != id
  }

  /** The fresh line for a dish not yet in the cart; `freshId` stands for the time-stamped id. */
  function NewLine(item: MenuItem, freshId: string): (l: OrderItem)
    ensures LineOk(l) && l.cantidad == 1 && l.totalItem == item.precioBase
    ensures l.id == freshId && l.menuItemId == item.id && l.notes == ""
  {
    OrderItem(freshId, item.id, item.nombre, item.precioBase, 1, item.precioBase, "")
  }

  /** A line with one more portion, its total recomputed from its own unit price. */
  function Bumped(l: OrderItem): (r: OrderItem)
    ensures LineOk(l) ==> LineOk(r)
    ensures r.cantidad == l.cantidad + 1
    ensures LineOk(l) ==> r.totalItem == l.totalItem + l.precioUnitario
    ensures r == l.(cantidad := r.cantidad, totalItem := r.totalItem)
  {
    l.(cantidad := l.cantidad + 1, totalItem := (l.cantidad + 1) * l.precioUnitario)
  }

  /** A line set to `q` portions. */
  function WithQuantity(l: OrderItem, q: int): (r: OrderItem)
    ensures q >= 1 ==> LineOk(r)
    ensures r == l.(cantidad := q, totalItem := q * l.precioUnitario)
  {
    l.(cantidad := q, totalItem := q * l.precioUnitario)
  }

  /**
   * `addToCart`: bumps every line sharing the id of the first note-less line
   * for the dish, or appends a fresh line when there is none.
   */
  function AddToCart(cart: seq<OrderItem>, item: MenuItem, freshId: string): (r: seq<OrderItem>)
    ensures |cart| <= |r| <= |cart| + 1
    ensures FirstIndex(cart, MergeTarget(item)).None? ==> r == cart + [NewLine(item, freshId)]
    ensures FirstIndex(cart, MergeTarget(item)).Some? ==>
      var k := FirstIndex(cart, MergeTarget(item)).value;
      |r| == |cart| && forall i :: 0 <= i < |cart| ==> r[i] == if cart[i].id == cart[k].id then Bumped(cart[i]) else cart[i]
    ensures CartOk(cart) ==> CartOk(r)
    ensures IdsDistinct(cart) && !HasLine(cart, freshId) ==> IdsDistinct(r)
  {
    match FirstIndex(cart, MergeTarget(item))
    case None => cart + [NewLine(item, freshId)]
    case Some(k) => seq(|cart|, i requires 0 <= i < |cart| => if cart[i].id == cart[k].id then Bumped(cart[i]) else cart[i])
  }

  /** `updateQuantity`: at zero or below the line goes; otherwise it is set to `q` portions. */
  function UpdateQuantity(cart: seq<OrderItem>, lineId: string, q: int): (r: seq<OrderItem>)
    ensures q <= 0 ==> !HasLine(r, lineId) && |r| <= |cart|
    ensures q <= 0 ==> forall i :: 0 <= i < |cart| && cart[i].id != lineId ==> cart[i] in r
    ensures q <= 0 ==> forall i :: 0 <= i < |r| ==> r[i] in cart
    ensures q > 0 ==> |r| == |cart| && forall i :: 0 <= i < |cart| ==>
      r[i] == if cart[i].id == lineId then WithQuantity(cart[i], q) else cart[i]
    ensures CartOk(cart) ==> CartOk(r)
    ensures IdsDistinct(cart) ==> IdsDistinct(r)
  {
    if q <= 0 then
      var r := Filter(cart, NotLine(lineId));
      FilterKeepsDistinct(cart, NotLine(lineId));
      r
    else seq(|cart|, i requires 0 <= i < |cart| => if cart[i].id == lineId then WithQuantity(cart[i], q) else cart[i])
  }

  /** A filtered cart keeps its ids distinct, since it keeps relative order. */
  lemma {:induction false} FilterKeepsDistinct(cart: seq<OrderItem>, p: OrderItem -> bool)
    ensures IdsDistinct(cart) ==> IdsDistinct(Filter(cart, p))
  {
    if |cart| > 0 && IdsDistinct(cart) {
      FilterKeepsDistinct(cart[1..], p);
      var rest := Filter(cart[1..], p);
      forall k | 0 <= k < |rest| ensures rest[k].id != cart[0].id {
        var j :| 0 <= j < |cart[1..]| && cart[1..][j] == rest[k];
        assert cart[j + 1] == rest[k];
      }
    }
  }

  /** `cart.reduce((sum, item) => sum + item.total_item, 0)`. */
  function Subtotal(cart: seq<OrderItem>): int
  {
    if |cart| == 0 then 0 else Subtotal(cart[..|cart| - 1]) + cart[|cart| - 1].totalItem
  }

  lemma {:induction false} SubtotalAppend(a: seq<OrderItem>, b: seq<OrderItem>)
    ensures Subtotal(a + b) == Subtotal(a) + Subtotal(b)
  {
    if |b| == 0 {
      assert a + b == a;
    } else {
      assert (a + b)[..|a + b| - 1] == a + b[..|b| - 1];
      SubtotalAppend(a, b[..|b| - 1]);
    }
  }

  /** Replacing one line moves the subtotal by the difference of the two line totals. */
  lemma SubtotalReplace(cart: seq<OrderItem>, k: int, l: OrderItem)
    requires 0 <= k < |cart|
    ensures Subtotal(cart[k := l]) == Subtotal(cart) - cart[k].totalItem + l.totalItem
  {
    assert cart == cart[..k] + [cart[k]] + cart[k + 1..];
    assert cart[k := l] == cart[..k] + [l] + cart[k + 1..];
    SubtotalAppend(cart[..k] + [cart[k]], cart[k + 1..]);
    SubtotalAppend(cart[..k], [cart[k]]);
    SubtotalAppend(cart[..k] + [l], cart[k + 1..]);
    SubtotalAppend(cart[..k], [l]);
  }

  /** With distinct line ids, a rewrite of the lines with `cart[k]`'s id is a rewrite of line `k` alone. */
  lemma OnlyLineK(cart: seq<OrderItem>, k: int, r: seq<OrderItem>, l: OrderItem)
    requires IdsDistinct(cart) && 0 <= k < |cart| && |r| == |cart|
    requires forall i :: 0 <= i < |cart| ==> r[i] == if cart[i].id == cart[k].id then l else cart[i]
    ensures r == cart[k := l]
  {
  }

  /**
   * With distinct line ids, adding a dish raises the subtotal by exactly one
   * unit price: the merged line's, or the dish's base price for a new line.
   */
  lemma AddToCartRaisesSubtotal(cart: seq<OrderItem>, item: MenuItem, freshId: string)
    requires IdsDistinct(cart) && CartOk(cart)
    ensures var k := FirstIndex(cart, MergeTarget(item));
      Subtotal(AddToCart(cart, item, freshId)) ==
        Subtotal(cart) + (if k.Some? then cart[k.value].precioUnitario else item.precioBase)
  {
    var r := AddToCart(cart, item, freshId);
    match FirstIndex(cart, MergeTarget(item))
    case None =>
      SubtotalAppend(cart, [NewLine(item, freshId)]);
    case Some(k) =>
      OnlyLineK(cart, k, r, Bumped(cart[k]));
      SubtotalReplace(cart, k, Bumped(cart[k]));
  }

  /** With distinct line ids, setting line `k` to `q > 0` portions replaces its total by `q × price` in the subtotal. */
  lemma UpdateQuantitySubtotal(cart: seq<OrderItem>, k: int, q: int)
    requires IdsDistinct(cart) && 0 <= k < |cart| && q > 0
    ensures Subtotal(UpdateQuantity(cart, cart[k].id, q)) ==
      Subtotal(cart) - cart[k].totalItem + q * cart[k].precioUnitario
  {
    var r := UpdateQuantity(cart, cart[k].id, q);
    OnlyLineK(cart, k, r, WithQuantity(cart[k], q));
    SubtotalReplace(cart, k, WithQuantity(cart[k], q));
  }

  /** With distinct line ids, filtering out line `k`'s id removes that line and nothing else. */
  lemma FilterOutLine(cart: seq<OrderItem>, k: int)
    requires IdsDistinct(cart) && 0 <= k < |cart|
    ensures Filter(cart, NotLine(cart[k].id)) == cart[..k] + cart[k + 1..]
  {
    var p := NotLine(cart[k].id);
    forall i | 0 <= i < |cart| && i != k ensures p(cart[i]) {
      if i < k {
        assert cart[i].id != cart[k].id;
      } else {
        assert cart[k].id != cart[i].id;
      }
    }
    FilterDropsOne(cart, k, p);
  }

  /** Dropping line `k` lowers the subtotal by that line's total. */
  lemma SubtotalWithout(cart: seq<OrderItem>, k: int)
    requires 0 <= k < |cart|
    ensures Subtotal(cart[..k] + cart[k + 1..]) == Subtotal(cart) - cart[k].totalItem
  {
    SplitAt(cart, k);
    SubtotalAppend(cart[..k], [cart[k]] + cart[k + 1..]);
    SubtotalAppend([cart[k]], cart[k + 1..]);
    SubtotalAppend(cart[..k], cart[k + 1..]);
    assert Subtotal([cart[k]]) == cart[k].totalItem by {
      assert [cart[k]][..0] == [];
    }
  }

  /** With distinct line ids, removing line `k` drops exactly that line and lowers the subtotal by its total. */
  lemma RemoveLineSubtotal(cart: seq<OrderItem>, k: int, q: int)
    requires IdsDistinct(cart) && 0 <= k < |cart| && q <= 0
    ensures UpdateQuantity(cart, cart[k].id, q) == cart[..k] + cart[k + 1..]
    ensures Subtotal(UpdateQuantity(cart, cart[k].id, q)) == Subtotal(cart) - cart[k].totalItem
  {
    FilterOutLine(cart, k);
    SubtotalWithout(cart, k);
  }
}
